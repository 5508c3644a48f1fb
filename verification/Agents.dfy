/** The agent: its reduced state and its two queues of messages waiting to be injected. */
module Agents {
  import opened Messages
  import opened Sequences
  import opened AgentEvents

  datatype QueueMode = All | OneAtATime

  /** What one poll takes from a queue: everything, or the first message if there is one. */
  function Drained(mode: QueueMode, messages: seq<AgentMessage>): (drained: seq<AgentMessage>)
    ensures drained <= messages
    ensures drained == [] <==> messages == []
    ensures if mode.All? then drained == messages else |drained| <= 1
  {
    if mode.All? || messages == [] then messages else messages[..1]
  }

  class PendingMessageQueue {
    var messages: seq<AgentMessage>
    var mode: QueueMode

    constructor (mode: QueueMode)
      ensures messages == [] && this.mode == mode
    {
      messages := [];
      this.mode := mode;
    }

    method Enqueue(message: AgentMessage)
      modifies this`messages
      ensures messages == old(messages) + [message]
    {
      messages := messages + [message];
    }

    method Drain() returns (drained: seq<AgentMessage>)
      modifies this`messages
      ensures drained == Drained(mode, old(messages)) && old(messages) == drained + messages
      ensures if mode.All? then messages == [] else |drained| == if old(messages) == [] then 0 else 1
    {
      if mode.All? {
        drained := messages;
        messages := [];
        return;
      }
      if |messages| == 0 {
        return [];
      }
      drained := [messages[0]];
      messages := messages[1..];
    }
  }

  datatype Queues =
    Queues(steering: seq<AgentMessage>, followUp: seq<AgentMessage>, steeringMode: QueueMode, followUpMode: QueueMode)

  /** What a user does while a run is under way; runs only look at the queues when they poll. */
  datatype Arrival =
    | Steer(message: AgentMessage)
    | FollowUp(message: AgentMessage)
    | SetSteeringMode(mode: QueueMode)
    | SetFollowUpMode(mode: QueueMode)

  function Arrive(q: Queues, a: Arrival): Queues
  {
    match a
    case Steer(m) => q.(steering := q.steering + [m])
    case FollowUp(m) => q.(followUp := q.followUp + [m])
    case SetSteeringMode(mode) => q.(steeringMode := mode)
    case SetFollowUpMode(mode) => q.(followUpMode := mode)
  }

  function ArriveAll(q: Queues, arrivals: seq<Arrival>): Queues
  {
    if arrivals == [] then q else Arrive(ArriveAll(q, Front(arrivals)), Last(arrivals))
  }

  class Agent {
    const steeringQueue: PendingMessageQueue
    const followUpQueue: PendingMessageQueue
    var messages: seq<AgentMessage>
    var streamingMessage: Option<AgentMessage>
    var pendingToolCalls: set<string>
    var errorMessage: Option<string>
    var activeRun: bool
    /** Every event given to the listeners. */
    ghost var trace: seq<Event>

    ghost predicate Valid()
    {
      steeringQueue != followUpQueue
    }

    ghost function State(): AgentState
      reads this
    {
      AgentState(messages, streamingMessage, pendingToolCalls, errorMessage)
    }

    ghost function Queued(): Queues
      reads steeringQueue, followUpQueue
    {
      Queues(steeringQueue.messages, followUpQueue.messages, steeringQueue.mode, followUpQueue.mode)
    }

    constructor (messages: seq<AgentMessage>, steeringMode: QueueMode, followUpMode: QueueMode)
      ensures Valid() && fresh(steeringQueue) && fresh(followUpQueue) && !activeRun
      ensures State() == AgentState(messages, None, {}, None) && trace == []
      ensures Queued() == Queues([], [], steeringMode, followUpMode)
    {
      steeringQueue := new PendingMessageQueue(steeringMode);
      followUpQueue := new PendingMessageQueue(followUpMode);
      this.messages, streamingMessage, pendingToolCalls, errorMessage, activeRun := messages, None, {}, None, false;
      trace := [];
    }

    /** Reduces the state for a loop event, which then goes to the listeners. */
    method ProcessEvents(event: Event)
      modifies this`messages, this`streamingMessage, this`pendingToolCalls, this`errorMessage, this`trace
      ensures State() == Reduce(old(State()), event) && trace == old(trace) + [event]
    {
      match event {
        case MessageStart(message) => streamingMessage := Some(message);
        case MessageUpdate(message) => streamingMessage := Some(message);
        case MessageEnd(message) =>
          streamingMessage := None;
          messages := messages + [message];
        case ToolStart(id) => pendingToolCalls := pendingToolCalls + {id};
        case ToolEnd(id) => pendingToolCalls := pendingToolCalls - {id};
        case TurnEnd(message, _) =>
          if message.Assistant? && message.errorMessage != "" {
            errorMessage := Some(message.errorMessage);
          }
        case AgentEnd(_) => streamingMessage := None;
        case _ =>
      }
      trace := trace + [event];
    }

    method Receive(arrivals: seq<Arrival>)
      requires Valid()
      modifies steeringQueue, followUpQueue
      ensures Queued() == ArriveAll(old(Queued()), arrivals)
    {
      for i := 0 to |arrivals|
        invariant Queued() == ArriveAll(old(Queued()), arrivals[..i])
      {
        FrontOfPrefix(arrivals, i);
        match arrivals[i] {
          case Steer(message) => steeringQueue.Enqueue(message);
          case FollowUp(message) => followUpQueue.Enqueue(message);
          case SetSteeringMode(mode) => steeringQueue.mode := mode;
          case SetFollowUpMode(mode) => followUpQueue.mode := mode;
        }
      }
      assert arrivals[..|arrivals|] == arrivals;
    }
  }
}
