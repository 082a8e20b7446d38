/** The agent loop of `agent_loop.rs`. Provider answers, hooks, queues, tools and cancellation are
    nondeterministic; `fuel` only bounds the number of turns looked at. */
module AgentLoop {
  import opened JsonValues
  import opened AgentEvents
  import opened ToolBatch
  import opened ProviderCache
  import opened RequestLog

  datatype LoopOutcome = Completed | WasAborted | Failed

  /** `Ok` is a run that returned; `ProviderError` is the error return; `Unfinished` ran out of fuel. */
  datatype RunEnd = Ok(outcome: LoopOutcome) | ProviderError | Unfinished

  // ----- the trace of a run under way -----

  ghost predicate OnTrack(trace: seq<Event>, newMessages: seq<AgentMessage>, phase: Phase) {
    && PhaseOf(trace) == phase
    && Ended(trace) == newMessages
    && Open(trace) == {}
    && TurnsSettle(trace)
  }

  lemma OnTrackInner(trace: seq<Event>, newMessages: seq<AgentMessage>, inner: seq<Event>)
    requires OnTrack(trace, newMessages, InTurn) && AllInner(inner) && Open(inner) == {}
    ensures OnTrack(trace + inner, newMessages + Ended(inner), InTurn)
  {
    AppendInner(trace, inner);
  }

  function MessageEvents(m: AgentMessage): seq<Event> {
    [MessageStart(m), MessageEnd(m)]
  }

  lemma OnTrackMessage(trace: seq<Event>, newMessages: seq<AgentMessage>, m: AgentMessage)
    requires OnTrack(trace, newMessages, InTurn)
    ensures OnTrack(trace + MessageEvents(m), newMessages + [m], InTurn)
  {
    Append([], MessageStart(m));
    Append([] + [MessageStart(m)], MessageEnd(m));
    assert [] + [MessageStart(m)] + [MessageEnd(m)] == MessageEvents(m);
    OnTrackInner(trace, newMessages, MessageEvents(m));
  }

  method EmitMessage(trace: seq<Event>, newMessages: seq<AgentMessage>, m: AgentMessage)
    returns (trace': seq<Event>, newMessages': seq<AgentMessage>)
    requires OnTrack(trace, newMessages, InTurn)
    ensures OnTrack(trace', newMessages', InTurn)
    ensures trace' == trace + MessageEvents(m) && newMessages' == newMessages + [m]
  {
    OnTrackMessage(trace, newMessages, m);
    trace', newMessages' := trace + MessageEvents(m), newMessages + [m];
  }

  method EmitTurnStart(trace: seq<Event>, ghost newMessages: seq<AgentMessage>) returns (trace': seq<Event>)
    requires OnTrack(trace, newMessages, BetweenTurns)
    ensures OnTrack(trace', newMessages, InTurn) && trace' == trace + [TurnStart]
  {
    Append(trace, TurnStart);
    trace' := trace + [TurnStart];
  }

  method EmitTurnEnd(trace: seq<Event>, ghost newMessages: seq<AgentMessage>, m: AgentMessage,
                     results: seq<ResultMessage>) returns (trace': seq<Event>)
    requires OnTrack(trace, newMessages, InTurn)
    ensures OnTrack(trace', newMessages, BetweenTurns) && trace' == trace + [TurnEnd(m, results)]
  {
    Append(trace, TurnEnd(m, results));
    trace' := trace + [TurnEnd(m, results)];
  }

  method EmitAgentEnd(trace: seq<Event>, newMessages: seq<AgentMessage>) returns (trace': seq<Event>)
    requires OnTrack(trace, newMessages, BetweenTurns)
    ensures OnTrack(trace', newMessages, Finished) && trace' == trace + [AgentEnd(newMessages)]
  {
    Append(trace, AgentEnd(newMessages));
    trace' := trace + [AgentEnd(newMessages)];
  }

  // ----- nothing queued is lost -----

  /** `part` in order within `whole`, perhaps with other messages between. */
  predicate Within(part: seq<AgentMessage>, whole: seq<AgentMessage>)
    decreases |whole|
  {
    part == [] || (whole != [] && (
      || Within(part, whole[..|whole| - 1])
      || (part[|part| - 1] == whole[|whole| - 1] && Within(part[..|part| - 1], whole[..|whole| - 1]))))
  }

  lemma {:induction false} WithinLonger(part: seq<AgentMessage>, whole: seq<AgentMessage>, more: seq<AgentMessage>)
    requires Within(part, whole)
    ensures Within(part, whole + more)
    decreases |more|
  {
    if more == [] {
      assert whole + more == whole;
    } else {
      assert (whole + more)[..|whole + more| - 1] == whole + more[..|more| - 1];
      WithinLonger(part, whole, more[..|more| - 1]);
    }
  }

  lemma {:induction false} WithinBoth(part: seq<AgentMessage>, whole: seq<AgentMessage>, more: seq<AgentMessage>)
    requires Within(part, whole)
    ensures Within(part + more, whole + more)
    decreases |more|
  {
    if more == [] {
      assert whole + more == whole && part + more == part;
    } else {
      assert (whole + more)[..|whole + more| - 1] == whole + more[..|more| - 1];
      assert (part + more)[..|part + more| - 1] == part + more[..|more| - 1];
      WithinBoth(part, whole, more[..|more| - 1]);
    }
  }

  /** A stretch that was added at the end, with more after it. */
  lemma WithinAdded(part: seq<AgentMessage>, whole: seq<AgentMessage>, added: seq<AgentMessage>,
                    longer: seq<AgentMessage>)
    requires Within(part, whole) && whole + added <= longer
    ensures Within(part + added, longer)
  {
    WithinBoth(part, whole, added);
    WithinLonger(part + added, whole + added, longer[|whole + added|..]);
    assert whole + added + longer[|whole + added|..] == longer;
  }

  /** Of what the queues gave, all but the `pending` end is among the messages. */
  predicate Piped(drained: seq<AgentMessage>, pending: seq<AgentMessage>, messages: seq<AgentMessage>) {
    && |pending| <= |drained|
    && drained[|drained| - |pending|..] == pending
    && Within(drained[..|drained| - |pending|], messages)
  }

  lemma PipeMore(drained: seq<AgentMessage>, more: seq<AgentMessage>, messages: seq<AgentMessage>)
    requires Within(drained, messages)
    ensures Piped(drained + more, more, messages)
  {
    assert (drained + more)[..|drained|] == drained;
  }

  lemma PipeEmpty(drained: seq<AgentMessage>, messages: seq<AgentMessage>)
    requires Piped(drained, [], messages)
    ensures Within(drained, messages)
  {
    assert drained[..|drained|] == drained;
  }

  // ----- one assistant response -----

  lemma ValidExtends(cache: ProviderMessageCache, context: seq<AgentMessage>, more: seq<AgentMessage>, config: Config)
    requires cache.Valid(context, config)
    ensures cache.Valid(context + more, config)
  {
    assert cache.initialized ==> (context + more)[..cache.sourceLen] == context[..cache.sourceLen];
  }

  /** The messages of the next request: from the cache if it can, else converted in full. */
  method NextRequest(context: seq<AgentMessage>, config: Config, cache: ProviderMessageCache)
    returns (sent: seq<Message>)
    requires cache.Valid(context, config) && config.Lawful()
    modifies cache
    ensures cache.Valid(context, config) && sent == config.Full(context)
  {
    var cached := cache.TakeMessages(context, config);
    if cached.Some? {
      sent := cached.value;
    } else {
      var messages := if config.transform.Some? then config.transform.value(context) else context;
      sent := config.convert(messages);
    }
    if config.Caches() {
      cache.sourceLen := |context|;
      cache.RestoreMessages(sent);
    }
    assert context[..|context|] == context;
  }

  /** How many messages started. */
  function Starts(trace: seq<Event>): nat {
    if trace == [] then 0
    else Starts(trace[..|trace| - 1]) + if trace[|trace| - 1].MessageStart? then 1 else 0
  }

  lemma StartsAppend(trace: seq<Event>, event: Event)
    ensures Starts(trace + [event]) == Starts(trace) + if event.MessageStart? then 1 else 0
  {
    assert (trace + [event])[..|trace|] == trace;
  }

  predicate AllAssistants(messages: seq<AgentMessage>) {
    forall m | m in messages :: m.Assistant?
  }

  /** What a stream leaves: the final message, once, after the partial messages of any earlier starts; each start has
      its event, and a stream that never started has one for the final message. */
  predicate Streamed(context: seq<AgentMessage>, context': seq<AgentMessage>, response: Option<AssistantMessage>,
                     trace: seq<Event>, stray: seq<AgentMessage>) {
    var final := if response.Some? then [Assistant(response.value)] else [];
    && AllInner(trace) && Open(trace) == {} && Ended(trace) == final
    && AllAssistants(stray) && context' == context + stray + final
    && Starts(trace) == |stray| + |final|
  }

  /** `stream_assistant_response`; `None` when the stream ends without a result. */
  method StreamAssistantResponse(context: seq<AgentMessage>, config: Config, cache: ProviderMessageCache)
    returns (context': seq<AgentMessage>, response: Option<AssistantMessage>, trace: seq<Event>, sent: seq<Message>,
             stray: seq<AgentMessage>)
    requires cache.Valid(context, config) && config.Lawful()
    modifies cache
    ensures cache.Valid(context', config) && sent == config.Full(context)
    ensures Streamed(context, context', response, trace, stray)
  {
    sent := NextRequest(context, config, cache);
    context', response, trace, stray := FoldStream(context);
    ValidExtends(cache, context, context'[|context|..], config);
    assert context + context'[|context|..] == context';
  }

  /** A stream under way: one partial message for each start. */
  predicate Streaming(context: seq<AgentMessage>, context': seq<AgentMessage>, trace: seq<Event>,
                      partials: seq<AgentMessage>) {
    && context' == context + partials && AllAssistants(partials)
    && AllInner(trace) && Open(trace) == {} && Ended(trace) == [] && Starts(trace) == |partials|
  }

  lemma PartialStarts(context: seq<AgentMessage>, context': seq<AgentMessage>, trace: seq<Event>,
                      partials: seq<AgentMessage>, partial: AssistantMessage)
    requires Streaming(context, context', trace, partials)
    ensures Streaming(context, context' + [Assistant(partial)], trace + [MessageStart(Assistant(partial))],
                      partials + [Assistant(partial)])
  {
    Append(trace, MessageStart(Assistant(partial)));
    StartsAppend(trace, MessageStart(Assistant(partial)));
  }

  lemma PartialGrows(context: seq<AgentMessage>, context': seq<AgentMessage>, trace: seq<Event>,
                     partials: seq<AgentMessage>, partial: AssistantMessage)
    requires Streaming(context, context', trace, partials)
    ensures Streaming(context, context', trace + [MessageUpdate(partial)], partials)
  {
    Append(trace, MessageUpdate(partial));
    StartsAppend(trace, MessageUpdate(partial));
  }

  /** The provider's events, whatever they are, folded into the context and the trace. */
  method FoldStream(context: seq<AgentMessage>)
    returns (context': seq<AgentMessage>, response: Option<AssistantMessage>, trace: seq<Event>,
             stray: seq<AgentMessage>)
    ensures Streamed(context, context', response, trace, stray)
  {
    context', response, trace := context, None, [];
    var addedPartial := false;
    var partials: seq<AgentMessage> := [];
    var n: nat :| true;
    for i := 0 to n
      invariant Streaming(context, context', trace, partials) && addedPartial == (partials != [])
    {
      var partial: AssistantMessage :| true;
      var starts: bool := *;
      if starts {
        PartialStarts(context, context', trace, partials, partial);
        context', trace := context' + [Assistant(partial)], trace + [MessageStart(Assistant(partial))];
        partials := partials + [Assistant(partial)];
        addedPartial := true;
      } else if addedPartial {
        PartialGrows(context, context', trace, partials, partial);
        trace := trace + [MessageUpdate(partial)];
      }
    }
    stray := partials;
    // the terminal event and the bare end of the stream both finish from the stream's result
    response :| true;
    if response.Some? {
      if addedPartial {
        stray := partials[..|partials| - 1];
        assert (context + partials)[..|context + partials| - 1] == context + stray;
      }
      context', trace := FinishStream(context', trace, Assistant(response.value), addedPartial);
    }
  }

  /** The final message takes the place of the partial one, or is appended. */
  method FinishStream(context: seq<AgentMessage>, trace: seq<Event>, final: AgentMessage, addedPartial: bool)
    returns (context': seq<AgentMessage>, trace': seq<Event>)
    requires AllInner(trace) && Open(trace) == {} && Ended(trace) == [] && (addedPartial ==> context != [])
    ensures AllInner(trace') && Open(trace') == {} && Ended(trace') == [final]
    ensures Starts(trace') == Starts(trace) + if addedPartial then 0 else 1
    ensures context' == (if addedPartial then context[..|context| - 1] else context) + [final]
  {
    trace' := trace;
    if addedPartial {
      ReplaceLast(context, final);
      context' := context[|context| - 1 := final];
    } else {
      context' := context + [final];
      StartsAppend(trace', MessageStart(final));
      trace' := Emit(trace', MessageStart(final));
    }
    StartsAppend(trace', MessageEnd(final));
    trace' := Emit(trace', MessageEnd(final));
    assert [] + [final] == [final];
  }

  lemma ReplaceLast(context: seq<AgentMessage>, final: AgentMessage)
    requires context != []
    ensures context[|context| - 1 := final] == context[..|context| - 1] + [final]
  {
  }

  function ToolCallsOf(content: seq<Block>): seq<ToolCall> {
    if content == [] then []
    else (if content[0].CallBlock? then [content[0].call] else []) + ToolCallsOf(content[1..])
  }

  lemma ToolCallsOfOne(b: Block)
    ensures ToolCallsOf([b]) == if b.CallBlock? then [b.call] else []
  {
    assert [b][1..] == [];
  }

  /** With this, these are the calls of the message, in order. */
  lemma {:induction false} ToolCallsSplit(a: seq<Block>, b: seq<Block>)
    ensures ToolCallsOf(a + b) == ToolCallsOf(a) + ToolCallsOf(b)
  {
    if a == [] {
      assert a + b == b;
    } else {
      var first := if a[0].CallBlock? then [a[0].call] else [];
      assert (a + b)[0] == a[0] && (a + b)[1..] == a[1..] + b;
      ToolCallsSplit(a[1..], b);
      assert ToolCallsOf(a) == first + ToolCallsOf(a[1..]);
      assert first + (ToolCallsOf(a[1..]) + ToolCallsOf(b)) == ToolCallsOf(a) + ToolCallsOf(b);
    }
  }

  /** Every result has its end event. */
  ghost predicate EndsCarry(trace: seq<Event>, results: seq<ResultMessage>) {
    |CallEnds(trace)| == |results| && forall e | e in EndsOf(results) :: e in CallEnds(trace)
  }

  /** The batch of a message: refused, failed in place, one by one, or in parallel. */
  method ExecuteToolCalls(message: AssistantMessage, calls: seq<ToolCall>, plan: seq<Script>, cancelledBefore: bool)
    returns (trace: seq<Event>, results: seq<ResultMessage>, terminate: bool, cancelled: bool,
             ghost executed: set<nat>)
    requires |plan| == |calls|
    ensures BatchSettled(calls, trace, results) && EndsCarry(trace, results)
    ensures !cancelled ==> |results| == |calls|
    ensures calls != [] ==> results != []
    ensures terminate <==> AllTerminate(results)
    ensures if message.stopReason == Length || Ambiguous(calls) then AllFail(results) && executed == {}
            else ResultsCame(calls, plan, executed, cancelled, results)
    ensures cancelledBefore ==> cancelled
  {
    terminate, cancelled, executed := false, cancelledBefore, {};
    if message.stopReason == Length {
      trace, results := FailTruncated(calls);
      NoneTerminates(results);
      return;
    }
    var rejected;
    rejected, trace, results := RejectAmbiguousBatch(calls);
    if rejected {
      NoneTerminates(results);
      return;
    }
    var sequential: bool := *;
    if sequential {
      trace, results, terminate, cancelled, executed := ExecuteSequential(calls, plan, cancelled);
    } else {
      var ends, order, ran;
      trace, results, terminate, cancelled, ends, order, ran := ExecuteParallel(calls, plan, cancelled);
      executed := ran;
      EndsReach(trace, results, ends);
    }
  }

  lemma NoneTerminates(results: seq<ResultMessage>)
    requires AllFail(results)
    ensures !AllTerminate(results)
  {
    if results != [] {
      assert results[0] in results;
    }
  }

  lemma EndsReach(trace: seq<Event>, results: seq<ResultMessage>, ends: seq<nat>)
    requires |CallEnds(trace)| == |ends|
    requires forall i: nat :: i in ends <==> i < |results|
    requires forall m, n | 0 <= m < n < |ends| :: ends[m] != ends[n]
    requires forall n | 0 <= n < |ends| :: ends[n] < |results| && CallEnds(trace)[n] == EndsOf(results)[ends[n]]
    ensures EndsCarry(trace, results)
  {
    forall e | e in EndsOf(results) ensures e in CallEnds(trace) {
      var i :| 0 <= i < |results| && EndsOf(results)[i] == e;
      assert i in ends;
      var n :| 0 <= n < |ends| && ends[n] == i;
      assert CallEnds(trace)[n] == e;
    }
    IndicesCount(ends, |results|);
  }

  /** Distinct numbers that are all those below `n`. */
  lemma {:induction false} IndicesCount(ends: seq<nat>, n: nat)
    requires forall i: nat :: i in ends <==> i < n
    requires forall j, k | 0 <= j < k < |ends| :: ends[j] != ends[k]
    ensures |ends| == n
    decreases |ends|
  {
    if ends == [] {
      assert n == 0 || n - 1 in ends;
    } else {
      assert ends[0] in ends;
      var last: nat := n - 1;
      assert last in ends;
      var k :| 0 <= k < |ends| && ends[k] == last;
      var rest := ends[..k] + ends[k + 1..];
      forall i: nat ensures i in rest <==> i < n - 1 {
        assert i in ends <==> i == ends[k] || i in rest;
        assert i in rest ==> i != ends[k];
      }
      IndicesCount(rest, n - 1);
    }
  }

  datatype Queue = Steering | FollowUps

  /** What a queue gave, and how many events there were. */
  datatype Drain = Drain(queue: Queue, at: nat, messages: seq<AgentMessage>)

  /** The run so far: the transcript the provider sees, what the run added, its events, the log of its requests, the
      assistant message it was handed, if any, what the queues gave, and whether a hook stopped it. */
  datatype Run = Run(context: seq<AgentMessage>, newMessages: seq<AgentMessage>, trace: seq<Event>,
                     log: Log, given: Option<AssistantMessage>, drains: seq<Drain>, hooked: bool)

  /** All that the queues gave, in order. */
  function Poured(drains: seq<Drain>): seq<AgentMessage> {
    if drains == [] then [] else Poured(drains[..|drains| - 1]) + drains[|drains| - 1].messages
  }

  /** Whatever is in a queue. */
  method DrainQueue(r: Run, queue: Queue) returns (r': Run, messages: seq<AgentMessage>)
    ensures r' == r.(drains := r.drains + [Drain(queue, |r.trace|, messages)])
    ensures Poured(r'.drains) == Poured(r.drains) + messages
  {
    messages :| true;
    r' := r.(drains := r.drains + [Drain(queue, |r.trace|, messages)]);
    assert r'.drains[..|r.drains|] == r.drains;
  }

  /** Some tool result asks for another turn. */
  predicate AsksForMore(results: seq<ResultMessage>) {
    exists r | r in results :: !r.result.terminate
  }

  predicate Cut(a: AssistantMessage) {
    a.stopReason == Error || a.stopReason == Aborted
  }

  /** The results answer the first calls of the message, in order; a message that was cut short runs none. */
  predicate Answers(a: AssistantMessage, results: seq<ResultMessage>) {
    var calls := ToolCallsOf(a.content);
    && |results| <= |calls|
    && (a.stopReason == Error || a.stopReason == Aborted ==> results == [])
    && forall i | 0 <= i < |results| :: results[i].id == calls[i].id && results[i].name == calls[i].name
  }

  /** A turn ends with its assistant message, unless the run was handed it, and then the turn's results. */
  predicate ClosesTurn(ended: seq<AgentMessage>, turn: AgentMessage, results: seq<ResultMessage>,
                       given: Option<AssistantMessage>) {
    && turn.Assistant?
    && Answers(turn.assistant, results)
    && |results| <= |ended|
    && var k := |ended| - |results|;
    && ended[k..] == ToolMessages(results)
    && (given == Some(turn.assistant) || (k > 0 && ended[k - 1] == turn))
  }

  const ABORTED := Assistant(AssistantMessage([], Aborted, Some("Operation aborted")))

  /** A turn has a cause: it is the first, or the turn before it had a result that asks for more, or messages went in
      between its start and its assistant message, the `at`-th of the run; or it wraps up a cancelled batch. */
  predicate Due(before: Mark, at: int, turn: AgentMessage) {
    || before.points == []
    || AsksForMore(before.results)
    || before.began < at
    || (turn == ABORTED && before.turn.Some? && HasCalls(before.turn.value))
  }

  predicate HasCalls(m: AgentMessage) {
    m.Assistant? && ToolCallsOf(m.assistant.content) != []
  }

  /** Every turn had a cause, and closed as it should. */
  predicate TurnsPaired(trace: seq<Event>, given: Option<AssistantMessage>) {
    trace == [] ||
    (var rest, last := trace[..|trace| - 1], trace[|trace| - 1];
     && TurnsPaired(rest, given)
     && (last.TurnEnd? ==>
           && ClosesTurn(Ended(rest), last.turn, last.results, given)
           && Due(MarkOf(rest), |Ended(rest)| - |last.results| - 1, last.turn)))
  }

  /** Every call of the message has its result, unless the message was cut short. */
  predicate Answered(turn: AgentMessage, results: seq<ResultMessage>) {
    turn.Assistant? && turn.assistant.stopReason != Error && turn.assistant.stopReason != Aborted ==>
      |results| == |ToolCallsOf(turn.assistant.content)|
  }

  predicate TurnsAnswered(trace: seq<Event>) {
    trace == [] ||
    (var rest, last := trace[..|trace| - 1], trace[|trace| - 1];
     TurnsAnswered(rest) && (last.TurnEnd? ==> Answered(last.turn, last.results)))
  }

  lemma {:induction false} TurnPairs(trace: seq<Event>, given: Option<AssistantMessage>, i: nat)
    requires TurnsPaired(trace, given) && i < |trace| && trace[i].TurnEnd?
    ensures ClosesTurn(Ended(trace[..i]), trace[i].turn, trace[i].results, given)
    ensures Due(MarkOf(trace[..i]), |Ended(trace[..i])| - |trace[i].results| - 1, trace[i].turn)
    ensures TurnsAnswered(trace) ==> Answered(trace[i].turn, trace[i].results)
  {
    if i < |trace| - 1 {
      TurnPairs(trace[..|trace| - 1], given, i);
      assert trace[..|trace| - 1][..i] == trace[..i];
    }
  }

  lemma {:induction false} PairedAppend(trace: seq<Event>, more: seq<Event>, given: Option<AssistantMessage>)
    requires TurnsPaired(trace, given) && forall e | e in more :: !e.TurnEnd?
    ensures TurnsPaired(trace + more, given)
    ensures TurnsAnswered(trace) ==> TurnsAnswered(trace + more)
    decreases |more|
  {
    if more == [] {
      assert trace + more == trace;
    } else {
      assert (trace + more)[..|trace + more| - 1] == trace + more[..|more| - 1];
      assert more[|more| - 1] in more && forall e | e in more[..|more| - 1] :: e in more;
      PairedAppend(trace, more[..|more| - 1], given);
    }
  }

  lemma PairedTurnEnd(trace: seq<Event>, turn: AgentMessage, results: seq<ResultMessage>,
                      given: Option<AssistantMessage>)
    requires TurnsPaired(trace, given) && ClosesTurn(Ended(trace), turn, results, given)
    requires Due(MarkOf(trace), |Ended(trace)| - |results| - 1, turn)
    ensures TurnsPaired(trace + [TurnEnd(turn, results)], given)
    ensures TurnsAnswered(trace) && Answered(turn, results) ==> TurnsAnswered(trace + [TurnEnd(turn, results)])
  {
    assert (trace + [TurnEnd(turn, results)])[..|trace|] == trace;
  }

  ghost predicate RunInv(r: Run, config: Config, phase: Phase) {
    && OnTrack(r.trace, r.newMessages, phase)
    && Logged(r.log, r.context, r.newMessages, config)
    && TurnsPaired(r.trace, r.given)
    && (r.hooked ==> phase == Finished)
  }

  /** One request for each turn that ended, made just before its assistant message. */
  predicate Timed(r: Run) {
    Ats(r.log.requests) == AskingPoints(r.trace, r.given)
  }

  /** One request more than that, made when there were `n` new messages. */
  predicate TimedAndAt(r: Run, n: int) {
    Ats(r.log.requests) == AskingPoints(r.trace, r.given) + [n]
  }

  /** The last turn that ended, with the last message, made no request. */
  predicate TimedButLast(r: Run) {
    Ats(r.log.requests) + [|r.newMessages| - 1] == AskingPoints(r.trace, r.given)
  }

  /** The run is in the turn whose assistant message it was handed. */
  predicate InHandedTurn(r: Run) {
    r.given.Some? && Points(r.trace) == []
  }

  /** The same within a turn, with `added` messages after its response; and the turn has a cause. */
  predicate TimedInTurn(r: Run, added: nat) {
    && (if InHandedTurn(r) then Timed(r) else TimedAndAt(r, |r.newMessages| - added - 1))
    && DueInTurn(r, added)
  }

  predicate DueInTurn(r: Run, added: nat) {
    var m := MarkOf(r.trace);
    m.points == [] || AsksForMore(m.results) || m.began < |r.newMessages| - added - 1
  }

  /** A turn that has begun will have a cause, once the pending messages are in. */
  predicate DueToAsk(r: Run, pending: nat) {
    var m := MarkOf(r.trace);
    m.points == [] || AsksForMore(m.results) || m.began < |r.newMessages| + pending
  }

  function HandedIn(r: Run): Option<AssistantMessage> {
    if InHandedTurn(r) then r.given else None
  }

  /** A run that goes on: between turns, or at the start of one. */
  ghost predicate Going(r: Run, config: Config, phase: Phase) {
    RunInv(r, config, phase) && TurnsAnswered(r.trace) && Timed(r)
  }

  /** What stays as it is while messages, results and events join a run. */
  predicate SameLog(r: Run, r': Run) {
    r'.log == r.log && SameRun(r, r') && MarkOf(r'.trace) == MarkOf(r.trace)
  }

  /** What stays as it is within a turn. */
  predicate SameRun(r: Run, r': Run) {
    r'.given == r.given && r'.drains == r.drains && r'.hooked == r.hooked
  }

  /** Messages that are added to the run one after the other. */
  method EmitAll(r: Run, messages: seq<AgentMessage>, config: Config) returns (r': Run)
    requires RunInv(r, config, InTurn)
    ensures RunInv(r', config, InTurn) && (TurnsAnswered(r.trace) ==> TurnsAnswered(r'.trace)) && SameLog(r, r')
    ensures r'.newMessages == r.newMessages + messages && r'.context == r.context + messages
  {
    r' := r;
    for i := 0 to |messages|
      invariant RunInv(r', config, InTurn) && (TurnsAnswered(r.trace) ==> TurnsAnswered(r'.trace)) && SameLog(r, r')
      invariant r'.newMessages == r.newMessages + messages[..i] && r'.context == r.context + messages[..i]
    {
      r' := EmitOne(r', messages[i], config);
      assert messages[..i + 1] == messages[..i] + [messages[i]];
    }
    assert messages[..|messages|] == messages;
  }

  method EmitOne(r: Run, m: AgentMessage, config: Config) returns (r': Run)
    requires RunInv(r, config, InTurn)
    ensures RunInv(r', config, InTurn) && (TurnsAnswered(r.trace) ==> TurnsAnswered(r'.trace)) && SameLog(r, r')
    ensures r'.newMessages == r.newMessages + [m] && r'.context == r.context + [m]
  {
    var trace, newMessages := EmitMessage(r.trace, r.newMessages, m);
    PairedAppend(r.trace, MessageEvents(m), r.given);
    MarkInner(r.trace, MessageEvents(m));
    LoggedMore(r.log, r.context, r.newMessages, [m], config);
    r' := r.(trace := trace, newMessages := newMessages, context := r.context + [m]);
  }

  /** Queued messages go in before the next request, so the cache cannot be extended over them. */
  method Inject(r: Run, pending: seq<AgentMessage>, config: Config, cache: ProviderMessageCache) returns (r': Run)
    requires RunInv(r, config, InTurn) && cache.Valid(r.context, config) && TurnsAnswered(r.trace)
    modifies cache
    ensures RunInv(r', config, InTurn) && cache.Valid(r'.context, config) && TurnsAnswered(r'.trace) && SameLog(r, r')
    ensures r'.newMessages == r.newMessages + pending && r'.context == r.context + pending
  {
    r' := r;
    if pending != [] {
      cache.Invalidate();
      r' := EmitAll(r, pending, config);
    }
  }

  /** The log after a streamed response: its request, and a new anchor if the stream left stray messages. */
  function Asked(r: Run, stray: seq<AgentMessage>, config: Config): Log {
    var n := |r.newMessages|;
    var requests := r.log.requests + [Request(config.Full(r.context), r.context, n)];
    Log(requests,
        if stray == [] then r.log.anchors
        else r.log.anchors + [Anchor(r.context + stray, n, |requests|, Restarted(stray))])
  }

  lemma AskedIsLogged(r: Run, stray: seq<AgentMessage>, more: seq<AgentMessage>, config: Config)
    requires Logged(r.log, r.context, r.newMessages, config)
    ensures Logged(Asked(r, stray, config), r.context + stray + more, r.newMessages + more, config)
  {
    LoggedAsk(r.log, r.context, r.newMessages, config);
    var asked := r.log.(requests := Asked(r, stray, config).requests);
    if stray == [] {
      assert r.context + stray == r.context;
    } else {
      LoggedRestart(asked, r.context, r.newMessages, stray, config);
    }
    LoggedMore(Asked(r, stray, config), r.context + stray, r.newMessages, more, config);
  }

  /** A new response, asked for with the full conversion of the transcript as it is. */
  method Respond(r: Run, config: Config, cache: ProviderMessageCache)
    returns (r': Run, message: Option<AssistantMessage>, stray: seq<AgentMessage>)
    requires RunInv(r, config, InTurn) && cache.Valid(r.context, config) && config.Lawful() && TurnsAnswered(r.trace)
    modifies cache
    ensures RunInv(r', config, InTurn) && cache.Valid(r'.context, config) && TurnsAnswered(r'.trace)
    ensures SameRun(r, r') && MarkOf(r'.trace) == MarkOf(r.trace) && r'.log == Asked(r, stray, config)
    ensures var final := if message.Some? then [Assistant(message.value)] else [];
            r'.newMessages == r.newMessages + final && r'.context == r.context + stray + final
  {
    var context, inner, sent;
    context, message, inner, sent, stray := StreamAssistantResponse(r.context, config, cache);
    OnTrackInner(r.trace, r.newMessages, inner);
    PairedAppend(r.trace, inner, r.given);
    MarkInner(r.trace, inner);
    AskedIsLogged(r, stray, Ended(inner), config);
    var requests := r.log.requests + [Request(sent, r.context, |r.newMessages|)];
    var anchors := r.log.anchors;
    if stray != [] {
      anchors := anchors + [Anchor(r.context + stray, |r.newMessages|, |requests|, Restarted(stray))];
    }
    r' := r.(context := context, newMessages := r.newMessages + Ended(inner), trace := r.trace + inner,
             log := Log(requests, anchors));
  }

  /** The tools of a turn, and the hook after their results. The results join the context, which the hook may then
      replace. `plan` is what the world has in store for the calls. */
  method RunTools(r: Run, message: AssistantMessage, config: Config, cache: ProviderMessageCache,
                  cancelledBefore: bool, plan: seq<Script>)
    returns (r': Run, results: seq<ResultMessage>, more: bool, cancelled: bool, ghost executed: set<nat>)
    requires RunInv(r, config, InTurn) && cache.Valid(r.context, config) && TurnsAnswered(r.trace) && !Cut(message)
    requires |plan| == |ToolCallsOf(message.content)|
    modifies cache
    ensures RunInv(r', config, InTurn) && cache.Valid(r'.context, config) && TurnsAnswered(r'.trace)
    ensures SameRun(r, r') && MarkOf(r'.trace) == MarkOf(r.trace)
    ensures r'.newMessages == r.newMessages + ToolMessages(results) && Answers(message, results)
    ensures MayReplace(r.log, r.context + ToolMessages(results), r'.log, r'.context, |r'.newMessages|)
    ensures more <==> AsksForMore(results)
    ensures var calls := ToolCallsOf(message.content);
            if message.stopReason == Length || Ambiguous(calls) then AllFail(results) && executed == {}
            else ResultsCame(calls, plan, executed, cancelled, results)
    ensures cancelledBefore ==> cancelled
    ensures ToolCallsOf(message.content) == [] ==> results == []
    ensures results == [] ==> r'.context == r.context && r'.log == r.log
    ensures !cancelled || ToolCallsOf(message.content) == [] ==> Answered(Assistant(message), results)
  {
    r', results, more, cancelled, executed := r, [], false, cancelledBefore, {};
    var calls := ToolCallsOf(message.content);
    assert r.context + ToolMessages([]) == r.context && r.newMessages + ToolMessages([]) == r.newMessages;
    if calls != [] {
      var inner, terminate;
      inner, results, terminate, cancelled, executed := ExecuteToolCalls(message, calls, plan, cancelled);
      r' := AddResults(r, inner, results, config);
      more := !terminate;
      ValidExtends(cache, r.context, ToolMessages(results), config);
      if results != [] {
        r' := ReplaceContext(r', config, cache);
      }
    }
  }

  method AddResults(r: Run, inner: seq<Event>, results: seq<ResultMessage>, config: Config) returns (r': Run)
    requires RunInv(r, config, InTurn) && TurnsAnswered(r.trace)
    requires AllInner(inner) && Open(inner) == {} && Ended(inner) == ToolMessages(results)
    ensures RunInv(r', config, InTurn) && TurnsAnswered(r'.trace) && SameLog(r, r')
    ensures r'.newMessages == r.newMessages + ToolMessages(results)
    ensures r'.context == r.context + ToolMessages(results)
  {
    OnTrackInner(r.trace, r.newMessages, inner);
    PairedAppend(r.trace, inner, r.given);
    MarkInner(r.trace, inner);
    LoggedMore(r.log, r.context, r.newMessages, ToolMessages(results), config);
    r' := r.(trace := r.trace + inner, newMessages := r.newMessages + ToolMessages(results),
             context := r.context + ToolMessages(results));
  }

  /** The transcript goes on, or a hook has replaced it when there were `n` new messages. */
  predicate MayReplace(log: Log, context: seq<AgentMessage>, log': Log, context': seq<AgentMessage>, n: nat) {
    || (log' == log && context' == context)
    || log' == log.(anchors := log.anchors + [Anchor(context', n, |log.requests|, Replaced)])
  }

  /** A hook may replace the context; then the cache no longer describes it. */
  method ReplaceContext(r: Run, config: Config, cache: ProviderMessageCache) returns (r': Run)
    requires cache.Valid(r.context, config) && Logged(r.log, r.context, r.newMessages, config)
    modifies cache
    ensures cache.Valid(r'.context, config) && Logged(r'.log, r'.context, r'.newMessages, config)
    ensures MayReplace(r.log, r.context, r'.log, r'.context, |r.newMessages|)
    ensures r' == r.(context := r'.context, log := r'.log)
  {
    r' := r;
    var replacement: Option<seq<AgentMessage>> :| true;
    if replacement.Some? {
      LoggedReplace(r.log, r.context, r.newMessages, replacement.value, config);
      var anchor := Anchor(replacement.value, |r.newMessages|, |r.log.requests|, Replaced);
      r' := r.(context := replacement.value, log := r.log.(anchors := r.log.anchors + [anchor]));
      cache.Invalidate();
    }
  }

  /** Every turn but the first starts with its event. */
  method BeginTurn(r: Run, first: bool, config: Config) returns (r': Run)
    requires RunInv(r, config, if first then InTurn else BetweenTurns)
    ensures RunInv(r', config, InTurn) && (TurnsAnswered(r.trace) ==> TurnsAnswered(r'.trace))
    ensures r' == r.(trace := if first then r.trace else r.trace + [TurnStart])
    ensures MarkOf(r'.trace) == if first then MarkOf(r.trace) else MarkOf(r.trace).(began := |r.newMessages|)
  {
    r' := r;
    if !first {
      PairedAppend(r.trace, [TurnStart], r.given);
      MarkTurnStart(r.trace);
      var trace := EmitTurnStart(r.trace, r.newMessages);
      r' := r.(trace := trace);
    }
  }

  /** The end event of a turn. */
  method CloseTurn(r: Run, turn: AgentMessage, results: seq<ResultMessage>, config: Config) returns (r': Run)
    requires RunInv(r, config, InTurn) && ClosesTurn(r.newMessages, turn, results, r.given)
    requires Due(MarkOf(r.trace), |r.newMessages| - |results| - 1, turn)
    ensures RunInv(r', config, BetweenTurns) && r' == r.(trace := r.trace + [TurnEnd(turn, results)])
    ensures var m := MarkOf(r.trace);
            MarkOf(r'.trace) == Mark(m.points + [|r.newMessages| - |results| - 1], Some(turn), results, m.began)
    ensures TurnsAnswered(r.trace) && Answered(turn, results) ==> TurnsAnswered(r'.trace)
  {
    PairedTurnEnd(r.trace, turn, results, r.given);
    MarkTurnEnd(r.trace, turn, results);
    var trace := EmitTurnEnd(r.trace, r.newMessages, turn, results);
    r' := r.(trace := trace);
  }

  /** The end event of a turn with a response. */
  method CloseResponse(r: Run, message: AssistantMessage, results: seq<ResultMessage>, config: Config)
    returns (r': Run)
    requires RunInv(r, config, InTurn) && ClosesTurn(r.newMessages, Assistant(message), results, r.given)
    requires TimedInTurn(r, |results|) && TurnsAnswered(r.trace)
    ensures RunInv(r', config, BetweenTurns) && Timed(r') && !InHandedTurn(r')
    ensures r'.log == r.log && SameRun(r, r') && r'.newMessages == r.newMessages && r'.context == r.context
    ensures LastTurn(r', Assistant(message), results)
    ensures Answered(Assistant(message), results) ==> TurnsAnswered(r'.trace)
  {
    r' := CloseTurn(r, Assistant(message), results, config);
    TimedClose(r, r', |results|);
  }

  /** The last turn of the run so far. */
  predicate LastTurn(r: Run, turn: AgentMessage, results: seq<ResultMessage>) {
    var m := MarkOf(r.trace);
    m.points != [] && m.turn == Some(turn) && m.results == results
  }

  lemma TimedClose(r: Run, r': Run, added: nat)
    requires TimedInTurn(r, added) && r'.log.requests == r.log.requests && r'.given == r.given
    requires Points(r'.trace) == Points(r.trace) + [|r.newMessages| - added - 1]
    ensures Timed(r') && !InHandedTurn(r')
  {
    var n := |r.newMessages| - added - 1;
    if InHandedTurn(r) {
      assert Points(r'.trace) == [n] && [n][1..] == [];
    } else if r.given.Some? {
      assert (Points(r.trace) + [n])[1..] == Points(r.trace)[1..] + [n];
    }
  }

  /** A turn that made no request. */
  lemma TimedUnasked(r: Run, r': Run)
    requires Timed(r) && !InHandedTurn(r) && r'.log.requests == r.log.requests && r'.given == r.given
    requires Points(r'.trace) == Points(r.trace) + [|r'.newMessages| - 1]
    ensures TimedButLast(r')
  {
    var n := |r'.newMessages| - 1;
    if r.given.Some? {
      assert (Points(r.trace) + [n])[1..] == Points(r.trace)[1..] + [n];
    }
  }

  /** Steering queued during a cancelled batch is kept, and the run ends with a new aborted assistant that no request
      was made for. */
  method WrapUpAborted(r: Run, queued: seq<AgentMessage>, config: Config) returns (r': Run)
    requires RunInv(r, config, BetweenTurns) && Timed(r) && !InHandedTurn(r) && EndedWithCalls(r)
    ensures RunInv(r', config, Finished) && Returned(r') && r'.log == r.log && SameRun(r, r')
    ensures r'.newMessages
            == r.newMessages + queued + [Assistant(AssistantMessage([], Aborted, Some("Operation aborted")))]
    ensures TimedButLast(r') && LastTurn(r', ABORTED, [])
  {
    r' := EmitAborted(r, queued, config);
    r' := CloseAborted(r', config);
    TimedUnasked(r, r');
    r' := EndRun(r', config);
  }

  predicate EndedWithCalls(r: Run) {
    MarkOf(r.trace).turn.Some? && HasCalls(MarkOf(r.trace).turn.value)
  }

  method EmitAborted(r: Run, queued: seq<AgentMessage>, config: Config) returns (r': Run)
    requires RunInv(r, config, BetweenTurns) && EndedWithCalls(r)
    ensures RunInv(r', config, InTurn) && r'.newMessages == r.newMessages + queued + [ABORTED]
    ensures r'.log == r.log && SameRun(r, r') && EndedWithCalls(r') && Points(r'.trace) == Points(r.trace)
  {
    r' := BeginTurn(r, false, config);
    r' := EmitAll(r', queued, config);
    r' := EmitOne(r', ABORTED, config);
  }

  method CloseAborted(r: Run, config: Config) returns (r': Run)
    requires RunInv(r, config, InTurn) && r.newMessages != [] && r.newMessages[|r.newMessages| - 1] == ABORTED
    requires EndedWithCalls(r)
    ensures RunInv(r', config, BetweenTurns) && r'.log == r.log && SameRun(r, r')
    ensures r'.newMessages == r.newMessages && Points(r'.trace) == Points(r.trace) + [|r.newMessages| - 1]
    ensures LastTurn(r', ABORTED, [])
  {
    assert ClosesTurn(r.newMessages, ABORTED, [], r.given);
    r' := CloseTurn(r, ABORTED, [], config);
  }

  /** What a returned run looks like. */
  ghost predicate Returned(r: Run) {
    r.trace != [] && r.trace[|r.trace| - 1] == AgentEnd(r.newMessages)
  }

  method EndRun(r: Run, config: Config) returns (r': Run)
    requires RunInv(r, config, BetweenTurns)
    ensures RunInv(r', config, Finished) && Returned(r') && SameLog(r, r') && r'.newMessages == r.newMessages
    ensures r'.trace == r.trace + [AgentEnd(r.newMessages)]
    ensures TurnsAnswered(r.trace) ==> TurnsAnswered(r'.trace)
  {
    var trace := EmitAgentEnd(r.trace, r.newMessages);
    PairedAppend(r.trace, [AgentEnd(r.newMessages)], r.given);
    MarkInner(r.trace, [AgentEnd(r.newMessages)]);
    r' := r.(trace := trace);
  }

  /** Whether a turn leads to another. */
  datatype TurnEnding = Continue(more: bool, pending: seq<AgentMessage>) | Stopped(end: RunEnd)

  /** What holds after a turn, and after the run if the turn was its last. */
  ghost predicate AfterTurn(r: Run, ending: TurnEnding, config: Config) {
    match ending
    case Continue(more, pending) =>
      && Going(r, config, BetweenTurns) && !InHandedTurn(r) && Points(r.trace) != []
      && (more <==> AsksForMore(MarkOf(r.trace).results))
      && JustDrained(r, Steering, pending)
    case Stopped(end) => AfterRun(r, end, config)
  }

  /** The queue gave these messages, and no event came since. */
  predicate JustDrained(r: Run, queue: Queue, messages: seq<AgentMessage>) {
    r.drains != [] && r.drains[|r.drains| - 1] == Drain(queue, |r.trace|, messages)
  }

  /** Nothing asks for another turn: neither a result of the last one, nor the queues, which were empty when there were
      `at` events. */
  predicate Quiet(r: Run, at: nat) {
    var n := |r.drains|;
    && !AsksForMore(MarkOf(r.trace).results)
    && n >= 2 && r.drains[n - 2] == Drain(Steering, at, []) && r.drains[n - 1] == Drain(FollowUps, at, [])
  }

  ghost predicate AfterRun(r: Run, end: RunEnd, config: Config) {
    && RunInv(r, config, PhaseOf(r.trace))
    && RequestsTimed(r, end)
    && (end.Ok? ==> PhaseOf(r.trace) == Finished && Returned(r))
    && (end.ProviderError? ==> PhaseOf(r.trace) == InTurn)
    && (end.Unfinished? ==> PhaseOf(r.trace) == InTurn || PhaseOf(r.trace) == BetweenTurns)
    && (end != Ok(WasAborted) ==> TurnsAnswered(r.trace))
    && (end == Ok(WasAborted) ==> EndsWith(r, Aborted))
    && (end == Ok(Failed) ==> EndsWith(r, Error))
    && Ends(r, end)
  }

  /** Why a run ended: its last message was cut short; a hook stopped it; or nothing asked for another turn. */
  predicate Ends(r: Run, end: RunEnd) {
    match end
    case Ok(Completed) => r.hooked || (r.trace != [] && Quiet(r, |r.trace| - 1))
    case Ok(_) => !r.hooked && MarkOf(r.trace).results == []
    case _ => !r.hooked
  }

  /** One request for each turn, but for the aborted message that ends a cancelled batch; and one that got no
      response, if the provider failed. */
  predicate RequestsTimed(r: Run, end: RunEnd) {
    match end
    case ProviderError => TimedAndAt(r, |r.newMessages|)
    case Ok(WasAborted) =>
      || Timed(r)
      || (r.newMessages != [] && r.newMessages[|r.newMessages| - 1] == ABORTED && TimedButLast(r))
    case _ => Timed(r)
  }

  /** The last message of the run stopped for this reason; the run was handed that message or produced it. */
  predicate EndsWith(r: Run, reason: StopReason) {
    || (r.given.Some? && r.given.value.stopReason == reason)
    || (r.newMessages != [] && var m := r.newMessages[|r.newMessages| - 1];
        m.Assistant? && m.assistant.stopReason == reason)
  }

  /** The run so far ends with this assistant message, or was handed it. */
  predicate Responded(r: Run, message: AssistantMessage) {
    || r.given == Some(message)
    || (r.newMessages != [] && r.newMessages[|r.newMessages| - 1] == Assistant(message))
  }

  /** The results of a turn follow its assistant message. */
  lemma ResultsClose(r: Run, message: AssistantMessage, results: seq<ResultMessage>)
    requires Responded(r, message) && Answers(message, results)
    ensures ClosesTurn(r.newMessages + ToolMessages(results), Assistant(message), results, r.given)
  {
    var ended := r.newMessages + ToolMessages(results);
    assert |ended| - |results| == |r.newMessages|;
    assert ended[|r.newMessages|..] == ToolMessages(results);
  }

  /** A response that failed or was aborted ends the run. */
  method StopTurn(r: Run, message: AssistantMessage, config: Config) returns (r': Run, ending: TurnEnding)
    requires RunInv(r, config, InTurn) && TurnsAnswered(r.trace) && Responded(r, message) && Cut(message)
    requires TimedInTurn(r, 0)
    ensures ending == Stopped(Ok(if message.stopReason == Aborted then WasAborted else Failed))
    ensures AfterTurn(r', ending, config)
    ensures r'.newMessages == r.newMessages && r'.log == r.log && SameRun(r, r')
  {
    ResultsClose(r, message, []);
    assert r.newMessages + ToolMessages([]) == r.newMessages;
    r' := CloseResponse(r, message, [], config);
    r' := EndRun(r', config);
    ending := Stopped(Ok(if message.stopReason == Aborted then WasAborted else Failed));
  }

  lemma ToolsClose(r: Run, r': Run, message: AssistantMessage, results: seq<ResultMessage>)
    requires Responded(r, message) && Answers(message, results) && TimedInTurn(r, 0)
    requires r'.log.requests == r.log.requests && r'.given == r.given && MarkOf(r'.trace) == MarkOf(r.trace)
    requires r'.newMessages == r.newMessages + ToolMessages(results)
    ensures ClosesTurn(r'.newMessages, Assistant(message), results, r'.given) && TimedInTurn(r', |results|)
  {
    ResultsClose(r, message, results);
  }

  /** The tools of a turn and its end event, and the hook after it. */
  method ToolsAndEnd(r: Run, message: AssistantMessage, config: Config, cache: ProviderMessageCache,
                     cancelledBefore: bool)
    returns (r': Run, more: bool, cancelled: bool)
    requires RunInv(r, config, InTurn) && cache.Valid(r.context, config) && TurnsAnswered(r.trace)
    requires Responded(r, message) && !Cut(message) && TimedInTurn(r, 0)
    modifies cache
    ensures RunInv(r', config, BetweenTurns) && cache.Valid(r'.context, config)
    ensures SameRun(r, r') && r.log.anchors <= r'.log.anchors && r.newMessages <= r'.newMessages
    ensures Timed(r') && !InHandedTurn(r') && Points(r'.trace) != []
    ensures more <==> AsksForMore(MarkOf(r'.trace).results)
    ensures EndedWithCalls(r') <==> ToolCallsOf(message.content) != []
    ensures cancelledBefore ==> cancelled
    ensures !cancelled || ToolCallsOf(message.content) == [] ==> TurnsAnswered(r'.trace)
  {
    var results;
    r', results, more, cancelled := RunAnyTools(r, message, config, cache, cancelledBefore);
    r' := EndTools(r, r', message, results, config);
    r' := ReplaceContext(r', config, cache);
  }

  /** The tools of a turn, whatever the world has in store for them. */
  method RunAnyTools(r: Run, message: AssistantMessage, config: Config, cache: ProviderMessageCache,
                     cancelledBefore: bool)
    returns (r': Run, results: seq<ResultMessage>, more: bool, cancelled: bool)
    requires RunInv(r, config, InTurn) && cache.Valid(r.context, config) && TurnsAnswered(r.trace) && !Cut(message)
    modifies cache
    ensures RunInv(r', config, InTurn) && cache.Valid(r'.context, config) && TurnsAnswered(r'.trace)
    ensures SameRun(r, r') && MarkOf(r'.trace) == MarkOf(r.trace)
    ensures r'.newMessages == r.newMessages + ToolMessages(results) && Answers(message, results)
    ensures r.log.anchors <= r'.log.anchors && r'.log.requests == r.log.requests
    ensures more <==> AsksForMore(results)
    ensures cancelledBefore ==> cancelled
    ensures !cancelled || ToolCallsOf(message.content) == [] ==> Answered(Assistant(message), results)
  {
    var plan := AnyPlan(|ToolCallsOf(message.content)|);
    ghost var executed;
    r', results, more, cancelled, executed := RunTools(r, message, config, cache, cancelledBefore, plan);
  }

  /** The end event of a turn whose results are in. */
  method EndTools(start: Run, r: Run, message: AssistantMessage, results: seq<ResultMessage>, config: Config)
    returns (r': Run)
    requires Responded(start, message) && Answers(message, results) && TimedInTurn(start, 0)
    requires RunInv(r, config, InTurn) && TurnsAnswered(r.trace)
    requires r.log.requests == start.log.requests && r.given == start.given && MarkOf(r.trace) == MarkOf(start.trace)
    requires r.newMessages == start.newMessages + ToolMessages(results)
    ensures RunInv(r', config, BetweenTurns) && Timed(r') && !InHandedTurn(r')
    ensures r'.log == r.log && SameRun(r, r') && r'.newMessages == r.newMessages && r'.context == r.context
    ensures LastTurn(r', Assistant(message), results)
    ensures Answered(Assistant(message), results) ==> TurnsAnswered(r'.trace)
  {
    ToolsClose(start, r, message, results);
    r' := CloseResponse(r, message, results, config);
  }

  /** Whatever the world has in store for `n` calls. */
  method AnyPlan(n: nat) returns (plan: seq<Script>)
    ensures |plan| == n
  {
    plan := [];
    for i := 0 to n
      invariant |plan| == i
    {
      var script: Script :| true;
      plan := plan + [script];
    }
  }

  /** The rest of a turn whose response was not cut short: tools, hooks, and the steering queue. */
  method ToolTurn(r: Run, message: AssistantMessage, config: Config, cache: ProviderMessageCache,
                  cancelledBefore: bool)
    returns (r': Run, ending: TurnEnding, cancelled: bool, ghost drained: seq<AgentMessage>)
    requires RunInv(r, config, InTurn) && cache.Valid(r.context, config) && TurnsAnswered(r.trace)
    requires Responded(r, message) && !Cut(message) && TimedInTurn(r, 0)
    modifies cache
    ensures AfterTurn(r', ending, config) && r'.given == r.given && r.log.anchors <= r'.log.anchors
    ensures ending.Continue? ==> cache.Valid(r'.context, config)
    ensures ending.Stopped? ==>
              ending.end == Ok(if cancelled && ToolCallsOf(message.content) != [] then WasAborted else Completed)
    ensures Keeps(r.newMessages, r'.newMessages, ending, drained) && Poured(r'.drains) == Poured(r.drains) + drained
    ensures r.drains <= r'.drains
  {
    var more;
    r', more, cancelled := ToolsAndEnd(r, message, config, cache, cancelledBefore);
    r', ending, cancelled, drained := AfterTools(r', more, ToolCallsOf(message.content) != [], config, cancelled);
  }

  /** A run that a hook stops, or that nothing keeps going. */
  method CompleteRun(r: Run, hooked: bool, config: Config) returns (r': Run)
    requires Going(r, config, BetweenTurns) && (!hooked ==> Quiet(r, |r.trace|))
    ensures AfterRun(r', Ok(Completed), config) && r'.hooked == hooked
    ensures r'.log == r.log && r'.given == r.given && r'.drains == r.drains && r'.newMessages == r.newMessages
  {
    r' := EndRun(r, config);
    r' := r'.(hooked := hooked);
  }

  /** What follows the end of a turn: a hook may stop the run, a cancelled batch ends it, or the steering queue is
      looked at. */
  method AfterTools(r: Run, more: bool, hasCalls: bool, config: Config, cancelledBefore: bool)
    returns (r': Run, ending: TurnEnding, cancelled: bool, ghost drained: seq<AgentMessage>)
    requires RunInv(r, config, BetweenTurns) && Timed(r) && !InHandedTurn(r) && Points(r.trace) != []
    requires (more <==> AsksForMore(MarkOf(r.trace).results)) && (hasCalls <==> EndedWithCalls(r))
    requires TurnsAnswered(r.trace) || (cancelledBefore && hasCalls)
    ensures AfterTurn(r', ending, config) && r'.given == r.given && r'.log == r.log
    ensures ending.Continue? ==> r' == r.(drains := r'.drains) && !(cancelled && hasCalls)
    ensures ending.Stopped? ==> ending.end == Ok(if cancelled && hasCalls then WasAborted else Completed)
    ensures cancelledBefore ==> cancelled
    ensures Keeps(r.newMessages, r'.newMessages, ending, drained) && Poured(r'.drains) == Poured(r.drains) + drained
    ensures r.drains <= r'.drains
  {
    cancelled, drained := cancelledBefore, [];
    var stop: bool, raised: bool := *, *;
    if stop && !(cancelled && hasCalls) {
      r', ending := StopByHook(r, config);
      return;
    }
    cancelled := cancelled || raised;
    var steering;
    r', steering := DrainQueue(r, Steering);
    drained := steering;
    if cancelled && hasCalls {
      r', ending := AbortBatch(r', steering, config);
    } else {
      ending := Continue(more, steering);
    }
  }

  method StopByHook(r: Run, config: Config) returns (r': Run, ending: TurnEnding)
    requires Going(r, config, BetweenTurns)
    ensures ending == Stopped(Ok(Completed)) && AfterTurn(r', ending, config)
    ensures r'.given == r.given && r'.log == r.log && r'.drains == r.drains
    ensures Keeps(r.newMessages, r'.newMessages, ending, [])
  {
    r' := CompleteRun(r, true, config);
    ending := Stopped(Ok(Completed));
    assert StandsAt([], r'.newMessages, |r'.newMessages|);
  }

  /** A cancelled batch ends the run with what was queued. */
  method AbortBatch(r: Run, steering: seq<AgentMessage>, config: Config) returns (r': Run, ending: TurnEnding)
    requires RunInv(r, config, BetweenTurns) && Timed(r) && !InHandedTurn(r) && EndedWithCalls(r)
    ensures ending == Stopped(Ok(WasAborted)) && AfterTurn(r', ending, config)
    ensures r'.given == r.given && r'.log == r.log && r'.drains == r.drains
    ensures Keeps(r.newMessages, r'.newMessages, ending, steering)
  {
    r' := WrapUpAborted(r, steering, config);
    assert StandsAt(steering, r'.newMessages, |r.newMessages|);
    ending := Stopped(Ok(WasAborted));
  }

  /** What a turn drained from the queues is handed on to the next, or is already among the run's messages. */
  ghost predicate Keeps(before: seq<AgentMessage>, after: seq<AgentMessage>, ending: TurnEnding,
                        drained: seq<AgentMessage>) {
    && before <= after
    && (ending.Continue? ==> ending.pending == drained)
    && (ending.Stopped? ==> exists n: nat :: |before| <= n <= |after| && StandsAt(drained, after, n))
  }

  predicate StandsAt(part: seq<AgentMessage>, whole: seq<AgentMessage>, n: nat) {
    n + |part| <= |whole| && whole[n..n + |part|] == part
  }

  lemma KeptWithin(piped: seq<AgentMessage>, before: seq<AgentMessage>, pending: seq<AgentMessage>,
                   after: seq<AgentMessage>, ending: TurnEnding, drained: seq<AgentMessage>)
    requires Piped(piped, pending, before) && Keeps(before + pending, after, ending, drained)
    ensures if ending.Continue? then Piped(piped + drained, ending.pending, after) else Within(piped + drained, after)
  {
    var injected := piped[..|piped| - |pending|];
    assert piped == injected + pending;
    if ending.Continue? {
      WithinAdded(injected, before, pending, after);
      PipeMore(piped, drained, after);
    } else {
      var n: nat :| |before + pending| <= n <= |after| && StandsAt(drained, after, n);
      assert before + pending <= after[..n];
      WithinAdded(injected, before, pending, after[..n]);
      assert after[..n] + drained == after[..n + |drained|];
      WithinAdded(piped, after[..n], drained, after);
    }
  }

  /** One pass of the inner loop after its first event: injections, response, tools, and the steering queue. */
  method TurnBody(r: Run, pending: seq<AgentMessage>, handedIn: Option<AssistantMessage>, config: Config,
                  cache: ProviderMessageCache, cancelledBefore: bool)
    returns (r': Run, ending: TurnEnding, cancelled: bool, ghost drained: seq<AgentMessage>)
    requires Going(r, config, InTurn) && cache.Valid(r.context, config) && config.Lawful()
    requires handedIn == HandedIn(r) && DueToAsk(r, |pending|)
    modifies cache
    ensures AfterTurn(r', ending, config) && r'.given == r.given && r.log.anchors <= r'.log.anchors
    ensures ending.Continue? ==> cache.Valid(r'.context, config)
    ensures ending.Stopped? ==> !ending.end.Unfinished?
    ensures Keeps(r.newMessages + pending, r'.newMessages, ending, drained)
    ensures Poured(r'.drains) == Poured(r.drains) + drained && r.drains <= r'.drains
  {
    cancelled, drained := cancelledBefore, [];
    var message;
    r', message := AskTurn(r, pending, handedIn, config, cache);
    if message.None? {
      ending := Stopped(ProviderError);
      assert StandsAt([], r'.newMessages, |r'.newMessages|);
    } else {
      r', ending, cancelled, drained := AfterResponse(r', message.value, config, cache, cancelled);
    }
  }

  /** A turn up to its assistant message: the one it was handed, or a new response. */
  method AskTurn(r: Run, pending: seq<AgentMessage>, handedIn: Option<AssistantMessage>, config: Config,
                 cache: ProviderMessageCache)
    returns (r': Run, message: Option<AssistantMessage>)
    requires Going(r, config, InTurn) && cache.Valid(r.context, config) && config.Lawful()
    requires handedIn == HandedIn(r) && DueToAsk(r, |pending|)
    modifies cache
    ensures RunInv(r', config, InTurn) && cache.Valid(r'.context, config) && TurnsAnswered(r'.trace)
    ensures message.Some? ==> Responded(r', message.value) && TimedInTurn(r', 0)
    ensures message.None? ==> TimedAndAt(r', |r'.newMessages|)
    ensures SameRun(r, r') && r.log.anchors <= r'.log.anchors
    ensures r.newMessages + pending <= r'.newMessages
  {
    r' := Inject(r, pending, config, cache);
    if handedIn.Some? {
      return r', handedIn;
    }
    r', message := Ask(r', config, cache);
  }

  /** A turn that was not handed its message makes one request. */
  method Ask(r: Run, config: Config, cache: ProviderMessageCache) returns (r': Run, message: Option<AssistantMessage>)
    requires RunInv(r, config, InTurn) && cache.Valid(r.context, config) && config.Lawful() && TurnsAnswered(r.trace)
    requires Timed(r) && !InHandedTurn(r) && DueToAsk(r, 0)
    modifies cache
    ensures RunInv(r', config, InTurn) && cache.Valid(r'.context, config) && TurnsAnswered(r'.trace)
    ensures message.Some? ==> Responded(r', message.value) && TimedInTurn(r', 0)
    ensures message.None? ==> TimedAndAt(r', |r'.newMessages|)
    ensures SameRun(r, r') && r.log.anchors <= r'.log.anchors && r.newMessages <= r'.newMessages
  {
    var stray;
    r', message, stray := Respond(r, config, cache);
    TimedRespond(r, r', message, stray, config);
  }

  /** A turn from its response on. */
  method AfterResponse(r: Run, message: AssistantMessage, config: Config, cache: ProviderMessageCache,
                       cancelledBefore: bool)
    returns (r': Run, ending: TurnEnding, cancelled: bool, ghost drained: seq<AgentMessage>)
    requires RunInv(r, config, InTurn) && cache.Valid(r.context, config) && TurnsAnswered(r.trace)
    requires Responded(r, message) && TimedInTurn(r, 0)
    modifies cache
    ensures AfterTurn(r', ending, config) && r'.given == r.given && r.log.anchors <= r'.log.anchors
    ensures ending.Continue? ==> cache.Valid(r'.context, config)
    ensures ending.Stopped? ==> ending.end.Ok?
    ensures Keeps(r.newMessages, r'.newMessages, ending, drained) && Poured(r'.drains) == Poured(r.drains) + drained
    ensures r.drains <= r'.drains
  {
    if Cut(message) {
      cancelled, drained := cancelledBefore, [];
      r', ending := StopTurn(r, message, config);
      assert StandsAt([], r'.newMessages, |r'.newMessages|);
    } else {
      r', ending, cancelled, drained := ToolTurn(r, message, config, cache, cancelledBefore);
    }
  }

  lemma TimedRespond(r: Run, r': Run, message: Option<AssistantMessage>, stray: seq<AgentMessage>, config: Config)
    requires Timed(r) && r'.given == r.given && MarkOf(r'.trace) == MarkOf(r.trace) && !InHandedTurn(r)
    requires r'.log == Asked(r, stray, config) && DueToAsk(r, 0)
    requires |r'.newMessages| == |r.newMessages| + if message.Some? then 1 else 0
    ensures if message.Some? then TimedInTurn(r', 0) else TimedAndAt(r', |r'.newMessages|)
    ensures r.log.anchors <= r'.log.anchors
  {
    AtsAppend(r.log.requests, Request(config.Full(r.context), r.context, |r.newMessages|));
  }

  /** One pass of the inner loop. A turn other than the first has a cause: a result of the turn before that asks for
      more, or pending messages. */
  method RunTurn(start: Run, first: bool, pending: seq<AgentMessage>, handedIn: Option<AssistantMessage>,
                 config: Config, cache: ProviderMessageCache, cancelledBefore: bool)
    returns (r: Run, ending: TurnEnding, cancelled: bool)
    requires Going(start, config, if first then InTurn else BetweenTurns)
    requires if first then Points(start.trace) == [] else AsksForMore(MarkOf(start.trace).results) || pending != []
    requires cache.Valid(start.context, config) && config.Lawful()
    requires handedIn == HandedIn(start)
    requires Piped(Poured(start.drains), pending, start.newMessages)
    modifies cache
    ensures AfterTurn(r, ending, config) && r.given == start.given && start.newMessages <= r.newMessages
    ensures start.log.anchors <= r.log.anchors && start.drains <= r.drains
    ensures ending.Continue? ==>
              cache.Valid(r.context, config) && Piped(Poured(r.drains), ending.pending, r.newMessages)
    ensures ending.Stopped? ==> !ending.end.Unfinished? && Within(Poured(r.drains), r.newMessages)
  {
    r := BeginTurn(start, first, config);
    ghost var drained;
    r, ending, cancelled, drained := TurnBody(r, pending, handedIn, config, cache, cancelledBefore);
    KeptWithin(Poured(start.drains), start.newMessages, pending, r.newMessages, ending, drained);
  }

  /** The steering queue was looked at before anything else. */
  predicate LookedFirst(start: Run, r: Run) {
    r.drains != [] && r.drains[0].queue == Steering && r.drains[0].at == |start.trace|
  }

  /** A run that is going on, with `pending` still to go in of the messages the queues gave. */
  ghost predicate UnderWay(start: Run, r: Run, first: bool, pending: seq<AgentMessage>, config: Config) {
    && Going(r, config, if first then InTurn else BetweenTurns)
    && (first ==> Points(r.trace) == [])
    && start.newMessages <= r.newMessages && start.log.anchors <= r.log.anchors && r.given == start.given
    && Piped(Poured(r.drains), pending, r.newMessages) && LookedFirst(start, r)
  }

  /** What a run leaves when it ends. */
  ghost predicate Over(start: Run, r: Run, end: RunEnd, config: Config) {
    && WholeRun(r, end, config) && r.given == start.given
    && start.newMessages <= r.newMessages && start.log.anchors <= r.log.anchors && LookedFirst(start, r)
  }

  /** A run that ended, with everything the queues gave among its messages. */
  ghost predicate WholeRun(r: Run, end: RunEnd, config: Config) {
    AfterRun(r, end, config) && (!end.Unfinished? ==> Within(Poured(r.drains), r.newMessages))
  }

  /** Where the tool and steering loop stands, before or after its first turn. */
  ghost predicate InLoop(start: Run, r: Run, begun: bool, first: bool, more: bool, pending: seq<AgentMessage>,
                         handedIn: Option<AssistantMessage>, config: Config) {
    && UnderWay(start, r, first, pending, config) && handedIn == HandedIn(r)
    && if begun then
         && !first && handedIn == None && JustDrained(r, Steering, pending)
         && (more <==> AsksForMore(MarkOf(r.trace).results))
       else more && (first || pending != [])
  }

  lemma OutOfFuel(start: Run, r: Run, first: bool, pending: seq<AgentMessage>, config: Config)
    requires UnderWay(start, r, first, pending, config)
    ensures Over(start, r, Unfinished, config)
  {
  }

  /** What is left when the loop is done. */
  ghost predicate LoopDone(start: Run, r: Run, config: Config) {
    && UnderWay(start, r, false, [], config) && HandedIn(r) == None
    && !AsksForMore(MarkOf(r.trace).results) && JustDrained(r, Steering, [])
  }

  /** One turn of a run that is under way. */
  method OneTurn(start: Run, current: Run, ghost begun: bool, first: bool, ghost more: bool,
                 pending: seq<AgentMessage>, handedIn: Option<AssistantMessage>, config: Config,
                 cache: ProviderMessageCache, cancelledBefore: bool)
    returns (r: Run, ending: TurnEnding, cancelled: bool)
    requires InLoop(start, current, begun, first, more, pending, handedIn, config) && (more || pending != [])
    requires cache.Valid(current.context, config) && config.Lawful()
    modifies cache
    ensures ending.Stopped? ==> Over(start, r, ending.end, config)
    ensures ending.Continue? ==> InLoop(start, r, true, false, ending.more, ending.pending, None, config)
    ensures ending.Continue? ==> cache.Valid(r.context, config)
  {
    r, ending, cancelled := RunTurn(current, first, pending, handedIn, config, cache, cancelledBefore);
    LookedStays(start, current, r);
    if ending.Stopped? {
      TurnEndsRun(start, current, r, ending.end, config);
    } else {
      TurnGoesOn(start, current, r, ending.more, ending.pending, config);
    }
  }

  lemma LookedStays(start: Run, r: Run, r': Run)
    requires LookedFirst(start, r) && r.drains <= r'.drains
    ensures LookedFirst(start, r')
  {
    assert r'.drains[0] == r.drains[0];
  }

  lemma TurnEndsRun(start: Run, r: Run, r': Run, end: RunEnd, config: Config)
    requires AfterRun(r', end, config) && (!end.Unfinished? ==> Within(Poured(r'.drains), r'.newMessages))
    requires start.newMessages <= r.newMessages <= r'.newMessages && r'.given == r.given == start.given
    requires start.log.anchors <= r.log.anchors <= r'.log.anchors && LookedFirst(start, r')
    ensures Over(start, r', end, config)
  {
  }

  lemma TurnGoesOn(start: Run, r: Run, r': Run, more: bool, pending: seq<AgentMessage>, config: Config)
    requires AfterTurn(r', Continue(more, pending), config) && Piped(Poured(r'.drains), pending, r'.newMessages)
    requires start.newMessages <= r.newMessages <= r'.newMessages && r'.given == r.given == start.given
    requires start.log.anchors <= r.log.anchors <= r'.log.anchors && LookedFirst(start, r')
    ensures InLoop(start, r', true, false, more, pending, None, config)
  {
  }

  /** The tool and steering loop: turns for as long as tools or queued messages ask for one more. `end` is set when the
      run ended with its last turn, or ran out of fuel; else nothing asks for another turn. */
  method DriveTurns(start: Run, current: Run, isFirst: bool, queued: seq<AgentMessage>,
                    handedIn: Option<AssistantMessage>, config: Config, cache: ProviderMessageCache,
                    cancelledBefore: bool, fuel: nat)
    returns (r: Run, end: Option<RunEnd>, cancelled: bool, left: nat)
    requires UnderWay(start, current, isFirst, queued, config) && cache.Valid(current.context, config)
    requires config.Lawful() && handedIn == HandedIn(current) && (isFirst || queued != [])
    modifies cache
    ensures end.Some? ==> Over(start, r, end.value, config)
    ensures end.None? ==> LoopDone(start, r, config) && cache.Valid(r.context, config) && left < fuel
  {
    var more, first, pending, assistant := true, isFirst, queued, handedIn;
    r, cancelled, left := current, cancelledBefore, fuel;
    while more || pending != []
      invariant InLoop(start, r, left < fuel, first, more, pending, assistant, config)
      invariant left <= fuel && cache.Valid(r.context, config)
      decreases left
    {
      if left == 0 {
        OutOfFuel(start, r, first, pending, config);
        return r, Some(Unfinished), cancelled, left;
      }
      left := left - 1;
      var ending;
      r, ending, cancelled := OneTurn(start, r, left + 1 < fuel, first, more, pending, assistant, config, cache,
                                      cancelled);
      if ending.Stopped? {
        return r, Some(ending.end), cancelled, left;
      }
      first, assistant, more, pending := false, None, ending.more, ending.pending;
    }
    end := None;
  }

  /** Nothing is left to do. */
  method Complete(start: Run, r: Run, config: Config) returns (r': Run)
    requires UnderWay(start, r, false, [], config) && Quiet(r, |r.trace|)
    ensures Over(start, r', Ok(Completed), config)
  {
    r' := CompleteRun(r, false, config);
    PipeEmpty(Poured(r.drains), r.newMessages);
  }

  /** The follow-up queue is looked at once nothing else asks for another turn. */
  method LookForFollowUps(start: Run, r: Run, config: Config) returns (r': Run, followUps: seq<AgentMessage>)
    requires LoopDone(start, r, config)
    ensures UnderWay(start, r', false, followUps, config) && r' == r.(drains := r'.drains) && HandedIn(r') == None
    ensures followUps == [] ==> Quiet(r', |r'.trace|)
  {
    PipeEmpty(Poured(r.drains), r.newMessages);
    r', followUps := DrainQueue(r, FollowUps);
    PipeMore(Poured(r.drains), followUps, r.newMessages);
  }

  /** `run_loop`: the follow-up loop around the tool and steering loop. The run starts inside its first turn. */
  method RunLoop(start: Run, config: Config, fuel: nat) returns (r: Run, end: RunEnd)
    requires Going(start, config, InTurn) && config.Lawful() && Points(start.trace) == [] && start.drains == []
    ensures Over(start, r, end, config)
  {
    var cache := new ProviderMessageCache();
    var first, assistant, cancelled, left := true, start.given, false, fuel;
    var pending;
    r, pending := DrainQueue(start, Steering);
    PipeMore([], pending, r.newMessages);
    assert Poured(r.drains) == [] + pending;
    while true
      invariant UnderWay(start, r, first, pending, config) && cache.Valid(r.context, config)
      invariant assistant == HandedIn(r) && fresh(cache) && (first || pending != [])
      decreases left
    {
      var ended;
      r, ended, cancelled, left := DriveTurns(start, r, first, pending, assistant, config, cache, cancelled, left);
      if ended.Some? {
        return r, ended.value;
      }
      first, assistant := false, None;
      r, pending := LookForFollowUps(start, r, config);
      if pending == [] {
        break;
      }
    }
    r := Complete(start, r, config);
    end := Ok(Completed);
  }

  // ----- the entry points -----

  /** A provider would refuse an empty context, and one that ends with an assistant message. */
  predicate CanContinue(context: seq<AgentMessage>) {
    context != [] && !context[|context| - 1].Assistant?
  }

  /** A run at its first event pair, with messages it starts with. */
  function Beginning(context: seq<AgentMessage>, given: Option<AssistantMessage>): Run {
    Run(context, [], [AgentStart, TurnStart], NewLog(context, []), given, [], false)
  }

  lemma Begin(config: Config, context: seq<AgentMessage>, given: Option<AssistantMessage>)
    ensures Going(Beginning(context, given), config, InTurn) && Points([AgentStart, TurnStart]) == []
  {
    Begins(given);
    NewLogIsLogged(context, [], config);
  }

  lemma Begins(given: Option<AssistantMessage>)
    ensures OnTrack([AgentStart, TurnStart], [], InTurn)
    ensures TurnsPaired([AgentStart, TurnStart], given) && TurnsAnswered([AgentStart, TurnStart])
    ensures MarkOf([AgentStart, TurnStart]) == Mark([], None, [], 0)
  {
    BeginsOnTrack();
    BeginsMark();
    PairedAppend([], [AgentStart, TurnStart], given);
    assert [] + [AgentStart, TurnStart] == [AgentStart, TurnStart];
  }

  lemma BeginsOnTrack()
    ensures OnTrack([AgentStart, TurnStart], [], InTurn)
  {
    Append([], AgentStart);
    assert [] + [AgentStart] == [AgentStart];
    Append([AgentStart], TurnStart);
    assert [AgentStart] + [TurnStart] == [AgentStart, TurnStart];
  }

  lemma BeginsMark()
    ensures MarkOf([AgentStart, TurnStart]) == Mark([], None, [], 0)
  {
    MarkInner([], [AgentStart]);
    assert [] + [AgentStart] == [AgentStart];
    MarkTurnStart([AgentStart]);
    assert [AgentStart] + [TurnStart] == [AgentStart, TurnStart];
    assert [AgentStart][..0] == [] && Ended([AgentStart]) == [];
  }

  /** `run_agent_loop`: a run from new prompts. */
  method RunAgentLoop(prompts: seq<AgentMessage>, context: seq<AgentMessage>, config: Config, fuel: nat)
    returns (r: Run, end: RunEnd)
    requires config.Lawful()
    ensures WholeRun(r, end, config) && r.given == None
    ensures prompts <= r.newMessages
    ensures NewLog(context + prompts, prompts).anchors <= r.log.anchors
  {
    Begin(config, context, None);
    r := EmitAll(Beginning(context, None), prompts, config);
    r := r.(log := NewLog(context + prompts, prompts));
    assert r.newMessages == prompts;
    r, end := RunLoop(r, config, fuel);
  }

  /** `run_agent_loop_continue`: refused when a provider would refuse the context. */
  method RunAgentLoopContinue(context: seq<AgentMessage>, config: Config, fuel: nat)
    returns (run: Option<(Run, RunEnd)>)
    requires config.Lawful()
    ensures run.Some? <==> CanContinue(context)
    ensures run.Some? ==>
              && WholeRun(run.value.0, run.value.1, config) && run.value.0.given == None
              && NewLog(context, []).anchors <= run.value.0.log.anchors
  {
    if context == [] {
      return None;
    }
    if context[|context| - 1].Assistant? {
      return None;
    }
    Begin(config, context, None);
    var r, end := RunLoop(Beginning(context, None), config, fuel);
    run := Some((r, end));
  }

  /** `run_agent_loop_from_assistant`: the tools of the last message run before any request. */
  method RunAgentLoopFromAssistant(context: seq<AgentMessage>, config: Config, fuel: nat)
    returns (run: Option<(Run, RunEnd)>)
    requires config.Lawful()
    ensures run.Some? <==> context != [] && context[|context| - 1].Assistant?
    ensures run.Some? ==>
              && WholeRun(run.value.0, run.value.1, config)
              && run.value.0.given == Some(context[|context| - 1].assistant)
              && NewLog(context, []).anchors <= run.value.0.log.anchors
  {
    if context == [] || !context[|context| - 1].Assistant? {
      return None;
    }
    var given := Some(context[|context| - 1].assistant);
    Begin(config, context, given);
    var r, end := RunLoop(Beginning(context, given), config, fuel);
    run := Some((r, end));
  }

  /** In a run that ended, a turn whose results ask for more is followed by another one, unless a hook stopped the run
      then or it ran out of fuel; and a run that no hook stopped is complete only when the last turn had no result that
      asks for more and both queues were found empty after it. */
  lemma RunGoesOn(r: Run, end: RunEnd, config: Config, i: nat)
    requires AfterRun(r, end, config) && i < |r.trace| && r.trace[i].TurnEnd? && AsksForMore(r.trace[i].results)
    ensures
      || (i + 1 < |r.trace| && r.trace[i + 1].TurnStart?)
      || (i + 2 == |r.trace| && end == Ok(Completed) && r.hooked)
      || (i + 1 == |r.trace| && end.Unfinished?)
  {
    AfterTurnEnd(r.trace, i);
    if i + 1 == |r.trace| || r.trace[i + 1].AgentEnd? {
      LastMark(r.trace, i);
    }
  }

  lemma CompletedIsQuiet(r: Run, config: Config)
    requires AfterRun(r, Ok(Completed), config) && !r.hooked
    ensures !AsksForMore(MarkOf(r.trace).results)
    ensures var n := |r.drains|;
            n >= 2 && r.drains[n - 2..] == [Drain(Steering, |r.trace| - 1, []), Drain(FollowUps, |r.trace| - 1, [])]
  {
  }

  /** After the end of a turn comes the start of another, or the end of the run, or nothing yet. */
  lemma {:induction false} AfterTurnEnd(trace: seq<Event>, i: nat)
    requires PhaseOf(trace) != Broken && i < |trace| && trace[i].TurnEnd?
    ensures PhaseOf(trace[..i + 1]) == BetweenTurns
    ensures i + 1 < |trace| ==> trace[i + 1].TurnStart? || (trace[i + 1].AgentEnd? && i + 2 == |trace|)
    ensures i + 1 == |trace| ==> PhaseOf(trace) == BetweenTurns
    decreases |trace|
  {
    var rest := trace[..|trace| - 1];
    if i == |trace| - 1 {
      assert trace[..i + 1] == trace;
    } else {
      AfterTurnEnd(rest, i);
      assert rest[..i + 1] == trace[..i + 1];
      if i + 2 == |trace| {
        assert rest == trace[..i + 1];
      }
    }
  }

  /** With nothing but the end of the run after it, a turn is the last one. */
  lemma LastMark(trace: seq<Event>, i: nat)
    requires i < |trace| && trace[i].TurnEnd?
    requires i + 1 == |trace| || (i + 2 == |trace| && trace[i + 1].AgentEnd?)
    ensures MarkOf(trace).results == trace[i].results && MarkOf(trace).turn == Some(trace[i].turn)
  {
    if i + 2 == |trace| {
      assert trace[..i + 1][..i] == trace[..i];
    }
  }

  /** Over a whole run every request carries the full conversion of the transcript at its turn: of what the run started
      from, or a hook put in its place, and the new messages since. */
  lemma RequestSeesTranscript(r: Run, end: RunEnd, config: Config, i: nat)
    requires AfterRun(r, end, config) && i < |r.log.requests|
    ensures
      var q, a := r.log.requests[i], AnchorOf(r.log.anchors, i);
      && a.from <= q.at <= |r.newMessages|
      && q.context == a.base + r.newMessages[a.from..q.at]
      && q.sent == config.Full(q.context)
  {
    RequestMadeFor(r.log.requests, r.log.anchors, r.newMessages, config, i);
  }

  /** While no hook has replaced the context and no stream has started twice, that is the starting context and all new
      messages; and so is the final context. */
  lemma RequestSeesRun(r: Run, end: RunEnd, config: Config, i: nat, context: seq<AgentMessage>, messages: nat)
    requires AfterRun(r, end, config) && i < |r.log.requests|
    requires messages <= |r.newMessages| && r.log.anchors == NewLog(context, r.newMessages[..messages]).anchors
    ensures
      var q := r.log.requests[i];
      messages <= q.at <= |r.newMessages| && q.sent == config.Full(context + r.newMessages[messages..q.at])
    ensures r.context == context + r.newMessages[messages..]
  {
    RequestSeesTranscript(r, end, config, i);
  }

  /** A returned run and the agent's state agree: the transcript gains exactly the returned messages, which are
      also the payload of the last event; nothing streams, and no call is pending, then or at any turn's end. */
  lemma TranscriptAgrees(s: AgentState, r: Run, end: RunEnd, config: Config)
    requires AfterRun(r, end, config) && end.Ok? && s.pending == {}
    ensures Fold(s, r.trace) == AgentState(s.messages + r.newMessages, None, {}, Fold(s, r.trace).error)
    ensures r.trace[|r.trace| - 1] == AgentEnd(r.newMessages)
    ensures forall i | 0 <= i < |r.trace| && r.trace[i].TurnEnd? :: Fold(s, r.trace[..i]).pending == {}
  {
    FoldAgrees(s, r.trace);
    FoldIsIdle(s, r.trace);
    forall i | 0 <= i < |r.trace| && r.trace[i].TurnEnd? ensures Fold(s, r.trace[..i]).pending == {} {
      TurnSettles(r.trace, i);
      FoldAgrees(s, r.trace[..i]);
    }
  }
}
