/** Messages, lifecycle events and the state fold of `agent.rs`, and what a trace of events says by itself. */
module AgentEvents {
  import opened JsonValues

  datatype StopReason = Stop | Length | ToolUse | Error | Aborted | Deferred

  /** `recorded` is set when the call already ran upstream. */
  datatype ToolCall = ToolCall(id: string, name: string, arguments: Json, recorded: Option<Json>)

  datatype Block = Prose(text: string) | CallBlock(call: ToolCall)

  datatype AssistantMessage = AssistantMessage(content: seq<Block>, stopReason: StopReason, error: Option<string>)

  datatype ToolResult = ToolResult(text: string, terminate: bool)

  datatype ResultMessage = ResultMessage(id: string, name: string, result: ToolResult, isError: bool)

  datatype AgentMessage =
    | User(text: string)
    | Assistant(assistant: AssistantMessage)
    | Tool(result: ResultMessage)
    | Custom(role: string, data: Json)

  datatype Event =
    | AgentStart
    | AgentEnd(messages: seq<AgentMessage>)
    | TurnStart
    | TurnEnd(turn: AgentMessage, results: seq<ResultMessage>)
    | MessageStart(message: AgentMessage)
    | MessageUpdate(partial: AssistantMessage)
    | MessageEnd(message: AgentMessage)
    | ToolStart(id: string)
    | ToolUpdate(id: string)
    | ToolEnd(id: string, result: ToolResult, isError: bool)

  // ----- the agent's state -----

  datatype AgentState = AgentState(messages: seq<AgentMessage>, streaming: Option<AssistantMessage>,
                                   pending: set<string>, error: Option<string>)

  function Reduce(s: AgentState, event: Event): AgentState {
    match event
    case MessageStart(m) => s.(streaming := if m.Assistant? then Some(m.assistant) else None)
    case MessageUpdate(partial) => s.(streaming := Some(partial))
    case MessageEnd(m) => s.(streaming := None, messages := s.messages + [m])
    case ToolStart(id) => s.(pending := s.pending + {id})
    case ToolEnd(id, _, _) => s.(pending := s.pending - {id})
    case TurnEnd(m, _) => if m.Assistant? && m.assistant.error.Some? then s.(error := m.assistant.error) else s
    case AgentEnd(_) => s.(streaming := None)
    case _ => s
  }

  function Fold(s: AgentState, trace: seq<Event>): AgentState {
    if trace == [] then s else Reduce(Fold(s, trace[..|trace| - 1]), trace[|trace| - 1])
  }

  class MutableAgentState {
    var messages: seq<AgentMessage>
    var streamingMessage: Option<AssistantMessage>
    var pendingToolCalls: set<string>
    var errorMessage: Option<string>

    ghost function Value(): AgentState
      reads this
    {
      AgentState(messages, streamingMessage, pendingToolCalls, errorMessage)
    }

    constructor (messages: seq<AgentMessage>)
      ensures Value() == AgentState(messages, None, {}, None)
    {
      this.messages, streamingMessage, pendingToolCalls, errorMessage := messages, None, {}, None;
    }

    method ReduceEvent(event: Event)
      modifies this
      ensures Value() == Reduce(old(Value()), event)
    {
      match event
      case MessageStart(m) =>
        streamingMessage := if m.Assistant? then Some(m.assistant) else None;
      case MessageUpdate(partial) =>
        streamingMessage := Some(partial);
      case MessageEnd(m) =>
        streamingMessage := None;
        messages := messages + [m];
      case ToolStart(id) =>
        pendingToolCalls := pendingToolCalls + {id};
      case ToolEnd(id, _, _) =>
        pendingToolCalls := pendingToolCalls - {id};
      case TurnEnd(m, _) =>
        if m.Assistant? && m.assistant.error.Some? {
          errorMessage := m.assistant.error;
        }
      case AgentEnd(_) =>
        streamingMessage := None;
      case _ =>
    }
  }

  // ----- what a trace says -----

  /** The messages that finished, in order. */
  function Ended(trace: seq<Event>): seq<AgentMessage> {
    if trace == [] then []
    else
      var rest := Ended(trace[..|trace| - 1]);
      var last := trace[|trace| - 1];
      if last.MessageEnd? then rest + [last.message] else rest
  }

  /** The tool calls that started and have not ended. */
  function Open(trace: seq<Event>): set<string> {
    if trace == [] then {} else OpenAfter(Open(trace[..|trace| - 1]), trace[|trace| - 1])
  }

  function OpenAfter(open: set<string>, event: Event): set<string> {
    match event
    case ToolStart(id) => open + {id}
    case ToolEnd(id, _, _) => open - {id}
    case _ => open
  }

  /** The calls that started, in order. */
  function CallStarts(trace: seq<Event>): seq<string> {
    if trace == [] then []
    else
      var rest := CallStarts(trace[..|trace| - 1]);
      var last := trace[|trace| - 1];
      if last.ToolStart? then rest + [last.id] else rest
  }

  /** The end events of calls, in order. */
  function CallEnds(trace: seq<Event>): seq<Event> {
    if trace == [] then []
    else
      var rest := CallEnds(trace[..|trace| - 1]);
      var last := trace[|trace| - 1];
      if last.ToolEnd? then rest + [last] else rest
  }

  /** Events that belong inside a turn. */
  predicate Inner(event: Event) {
    !event.AgentStart? && !event.AgentEnd? && !event.TurnStart? && !event.TurnEnd?
  }

  predicate AllInner(trace: seq<Event>) {
    forall i | 0 <= i < |trace| :: Inner(trace[i])
  }

  /** Where a run stands: AgentStart (TurnStart inner* TurnEnd)+ AgentEnd. `Broken` is off that path. */
  datatype Phase = Fresh | Begun | InTurn | BetweenTurns | Finished | Broken

  function PhaseOf(trace: seq<Event>): Phase {
    if trace == [] then Fresh
    else
      match (PhaseOf(trace[..|trace| - 1]), trace[|trace| - 1])
      case (Fresh, AgentStart) => Begun
      case (Begun, TurnStart) => InTurn
      case (BetweenTurns, TurnStart) => InTurn
      case (InTurn, TurnEnd(_, _)) => BetweenTurns
      case (BetweenTurns, AgentEnd(_)) => Finished
      case (InTurn, event) => if Inner(event) then InTurn else Broken
      case _ => Broken
  }

  /** No tool call is open at the end of any turn. */
  predicate TurnsSettle(trace: seq<Event>) {
    trace == [] ||
    (&& TurnsSettle(trace[..|trace| - 1])
     && (trace[|trace| - 1].TurnEnd? ==> Open(trace[..|trace| - 1]) == {}))
  }

  lemma {:induction false} TurnSettles(trace: seq<Event>, i: nat)
    requires TurnsSettle(trace) && i < |trace| && trace[i].TurnEnd?
    ensures Open(trace[..i]) == {}
  {
    if i < |trace| - 1 {
      TurnSettles(trace[..|trace| - 1], i);
      assert trace[..|trace| - 1][..i] == trace[..i];
    }
  }

  /** Appending one event. */
  lemma Append(trace: seq<Event>, event: Event)
    ensures Ended(trace + [event]) == Ended(trace) + (if event.MessageEnd? then [event.message] else [])
    ensures CallEnds(trace + [event]) == CallEnds(trace) + (if event.ToolEnd? then [event] else [])
    ensures CallStarts(trace + [event]) == CallStarts(trace) + (if event.ToolStart? then [event.id] else [])
    ensures Open(trace + [event]) == OpenAfter(Open(trace), event)
    ensures PhaseOf(trace) == InTurn && Inner(event) ==> PhaseOf(trace + [event]) == InTurn
    ensures PhaseOf(trace) == InTurn && event.TurnEnd? ==> PhaseOf(trace + [event]) == BetweenTurns
    ensures PhaseOf(trace).Begun? || PhaseOf(trace).BetweenTurns?
            ==> (event.TurnStart? ==> PhaseOf(trace + [event]) == InTurn)
    ensures PhaseOf(trace).BetweenTurns? && event.AgentEnd? ==> PhaseOf(trace + [event]) == Finished
    ensures TurnsSettle(trace) && (event.TurnEnd? ==> Open(trace) == {}) ==> TurnsSettle(trace + [event])
  {
    var longer := trace + [event];
    assert longer[..|longer| - 1] == trace;
  }

  /** Appending inner events that close every call they open. */
  lemma {:induction false} AppendInner(trace: seq<Event>, inner: seq<Event>)
    requires AllInner(inner)
    ensures Ended(trace + inner) == Ended(trace) + Ended(inner)
    ensures Open(trace) == {} ==> Open(trace + inner) == Open(inner)
    ensures PhaseOf(trace) == InTurn ==> PhaseOf(trace + inner) == InTurn
    ensures TurnsSettle(trace) ==> TurnsSettle(trace + inner)
  {
    if inner == [] {
      assert trace + inner == trace;
    } else {
      var rest, last := inner[..|inner| - 1], inner[|inner| - 1];
      AppendInner(trace, rest);
      Append(trace + rest, last);
      assert trace + rest + [last] == trace + inner;
    }
  }

  // ----- the fold agrees with the trace -----

  /** The agent's transcript is the old one followed by exactly the messages that ended. */
  lemma {:induction false} FoldAgrees(s: AgentState, trace: seq<Event>)
    ensures Fold(s, trace).messages == s.messages + Ended(trace)
    ensures s.pending == {} ==> Fold(s, trace).pending == Open(trace)
  {
    if trace != [] {
      FoldAgrees(s, trace[..|trace| - 1]);
    }
  }

  /** A finished run leaves no message streaming. */
  lemma FoldIsIdle(s: AgentState, trace: seq<Event>)
    requires PhaseOf(trace) == Finished
    ensures Fold(s, trace).streaming == None
  {
  }
}
