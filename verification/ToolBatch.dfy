/** One batch of tool calls of `agent_loop.rs`. Hooks, tools, event delivery and cancellation are
    nondeterministic: a method's contract holds for every way they can go. */
module ToolBatch {
  import opened JsonValues
  import opened AgentEvents
  import Chars

  datatype Finalized = Finalized(call: ToolCall, result: ToolResult, isError: bool)

  datatype Prepared = Immediate(result: ToolResult, isError: bool) | Ready(arguments: Json)

  /** What the world has in store for a call: what its recording decodes to; why it is refused before any hook, if it is
      (an unknown tool, or arguments its tool cannot prepare or its schema rejects); its validated arguments; what the
      hook before it does, if there is one; and what its tool and the hook after it come to. */
  datatype Script = Script(recording: Outcome, refusal: Option<string>, arguments: Json, before: Option<BeforeHook>,
                           execution: Outcome)

  datatype BeforeHook = BeforeHook(replacement: Option<Json>, blocked: bool, terminate: bool)

  datatype Outcome = Outcome(result: ToolResult, isError: bool)

  /** Running calls, by index. */
  type Running = map<nat, ToolCall>

  /** Calls that have completed and wait for their end event. */
  type Completed = seq<(nat, Finalized)>

  predicate InvalidCall(call: ToolCall) {
    Chars.IsBlank(call.id) || Chars.IsBlank(call.name)
  }

  function ResultOf(f: Finalized): ResultMessage {
    ResultMessage(f.call.id, f.call.name, f.result, f.isError)
  }

  function EndOf(f: Finalized): Event {
    ToolEnd(f.call.id, f.result, f.isError)
  }

  /** The end events that these results had. */
  function EndsOf(results: seq<ResultMessage>): seq<Event> {
    seq(|results|, i requires 0 <= i < |results| => ToolEnd(results[i].id, results[i].result, results[i].isError))
  }

  /** The results of a batch end it if there are any and all of them say so. */
  predicate AllTerminate(results: seq<ResultMessage>) {
    results != [] && forall r | r in results :: r.result.terminate
  }

  /** What a call came to. Invalid, recorded and refused calls never run; a blocked one never runs either; any other one
      runs and ends as its tool does, unless the batch was cancelled before it ran. */
  predicate CameTo(call: ToolCall, script: Script, ran: bool, cancelled: bool, result: ToolResult, isError: bool) {
    if Chars.IsBlank(call.id) || Chars.IsBlank(call.name) then !ran && isError && !result.terminate
    else if call.recorded.Some? then !ran && Outcome(result, isError) == script.recording
    else if script.refusal.Some? then !ran && isError && result == ToolResult(script.refusal.value, false)
    else
      || (cancelled && !ran && isError && result == ToolResult("Operation aborted", false))
      || (if script.before.Some? && script.before.value.blocked
          then !ran && isError && result == ToolResult("Tool execution was blocked", script.before.value.terminate)
          else ran && Outcome(result, isError) == script.execution)
  }

  function ToolMessages(results: seq<ResultMessage>): seq<AgentMessage> {
    seq(|results|, i requires 0 <= i < |results| => Tool(results[i]))
  }

  /** The start that a call announces, unless it cannot be correlated. */
  function StartOf(call: ToolCall): seq<string> {
    if Chars.IsBlank(call.id) || Chars.IsBlank(call.name) then [] else [call.id]
  }

  /** The starts of the first `n` calls. */
  function StartsOf(calls: seq<ToolCall>, n: nat): seq<string>
    requires n <= |calls|
  {
    if n == 0 then [] else StartsOf(calls, n - 1) + StartOf(calls[n - 1])
  }

  predicate ShouldTerminate(fs: seq<Finalized>) {
    fs != [] && forall f | f in fs :: f.result.terminate
  }

  predicate Ambiguous(calls: seq<ToolCall>) {
    exists i, j | 0 <= i < j < |calls| :: calls[i].id == calls[j].id
  }

  /** What a batch leaves for the loop: its inner events, which end exactly its result messages and leave no
      call open, and the results of a prefix of the calls in source order. */
  ghost predicate BatchSettled(calls: seq<ToolCall>, trace: seq<Event>, results: seq<ResultMessage>) {
    && AllInner(trace)
    && Ended(trace) == ToolMessages(results)
    && Open(trace) == {}
    && |results| <= |calls|
    && forall i | 0 <= i < |results| :: results[i].id == calls[i].id && results[i].name == calls[i].name
  }

  // ----- appending to a batch trace -----

  lemma AppendSilent(trace: seq<Event>, more: seq<Event>)
    requires forall e | e in more :: e.ToolUpdate? || e.MessageStart?
    ensures Ended(trace + more) == Ended(trace)
    ensures CallEnds(trace + more) == CallEnds(trace) && CallStarts(trace + more) == CallStarts(trace)
    ensures Open(trace + more) == Open(trace)
    ensures AllInner(trace) ==> AllInner(trace + more)
  {
    if more == [] {
      assert trace + more == trace;
    } else {
      var rest, last := more[..|more| - 1], more[|more| - 1];
      assert forall e | e in rest :: e in more;
      assert last in more;
      AppendSilent(trace, rest);
      Append(trace + rest, last);
      assert trace + rest + [last] == trace + more;
    }
  }

  method EmitResult(trace: seq<Event>, message: ResultMessage) returns (r: seq<Event>)
    ensures r == trace + [MessageStart(Tool(message)), MessageEnd(Tool(message))]
    ensures Ended(r) == Ended(trace) + [Tool(message)]
    ensures CallEnds(r) == CallEnds(trace) && CallStarts(r) == CallStarts(trace) && Open(r) == Open(trace)
    ensures AllInner(trace) ==> AllInner(r)
  {
    r := trace + [MessageStart(Tool(message))];
    Append(trace, MessageStart(Tool(message)));
    Append(r, MessageEnd(Tool(message)));
    r := r + [MessageEnd(Tool(message))];
    assert r == trace + [MessageStart(Tool(message)), MessageEnd(Tool(message))];
  }

  method Emit(trace: seq<Event>, event: Event) returns (r: seq<Event>)
    ensures r == trace + [event]
    ensures Ended(r) == Ended(trace) + (if event.MessageEnd? then [event.message] else [])
    ensures CallEnds(r) == CallEnds(trace) + (if event.ToolEnd? then [event] else [])
    ensures CallStarts(r) == CallStarts(trace) + (if event.ToolStart? then [event.id] else [])
    ensures Open(r) == OpenAfter(Open(trace), event)
    ensures AllInner(trace) && Inner(event) ==> AllInner(r)
  {
    Append(trace, event);
    r := trace + [event];
  }

  /** The end event and the result message of the next call in source order. */
  method Settle(calls: seq<ToolCall>, trace: seq<Event>, results: seq<ResultMessage>, f: Finalized)
    returns (trace': seq<Event>, results': seq<ResultMessage>)
    requires AllInner(trace) && Ended(trace) == ToolMessages(results) && Open(trace) <= {f.call.id}
    requires |results| < |calls| && f.call == calls[|results|]
    requires forall i | 0 <= i < |results| :: results[i].id == calls[i].id && results[i].name == calls[i].name
    ensures BatchSettled(calls, trace', results')
    ensures results' == results + [ResultMessage(f.call.id, f.call.name, f.result, f.isError)]
    ensures CallEnds(trace') == CallEnds(trace) + [EndOf(f)] && CallStarts(trace') == CallStarts(trace)
    ensures CallEnds(trace) == EndsOf(results) ==> CallEnds(trace') == EndsOf(results')
    ensures trace' == trace + [EndOf(f), MessageStart(Tool(ResultOf(f))), MessageEnd(Tool(ResultOf(f)))]
  {
    trace' := Emit(trace, ToolEnd(f.call.id, f.result, f.isError));
    trace' := EmitResult(trace', ResultOf(f));
    results' := results + [ResultOf(f)];
    assert ToolMessages(results') == ToolMessages(results) + [Tool(ResultOf(f))];
    assert EndsOf(results') == EndsOf(results) + [EndOf(f)];
  }

  function ErrorResult(text: string): ToolResult {
    ToolResult(text, false)
  }

  // ----- batches that run nothing -----

  predicate AllFail(results: seq<ResultMessage>) {
    forall r | r in results :: r.isError && !r.result.terminate
  }

  method HasRepeatedId(calls: seq<ToolCall>) returns (repeated: bool)
    ensures repeated == Ambiguous(calls)
  {
    var ids: set<string> := {};
    var n := 0;
    while n < |calls| && calls[n].id !in ids
      invariant 0 <= n <= |calls|
      invariant ids == set k | 0 <= k < n :: calls[k].id
      invariant forall p, q | 0 <= p < q < n :: calls[p].id != calls[q].id
    {
      ids := ids + {calls[n].id};
      n := n + 1;
    }
    repeated := n < |calls|;
  }

  /** A batch with a repeated id is answered with errors; nothing starts. */
  method RejectAmbiguousBatch(calls: seq<ToolCall>)
    returns (rejected: bool, trace: seq<Event>, results: seq<ResultMessage>)
    ensures rejected == Ambiguous(calls)
    ensures rejected ==> BatchSettled(calls, trace, results) && |results| == |calls|
    ensures rejected ==> AllFail(results) && CallEnds(trace) == EndsOf(results)
    ensures CallStarts(trace) == []
    ensures !rejected ==> trace == [] && results == []
  {
    trace, results := [], [];
    rejected := HasRepeatedId(calls);
    if !rejected {
      return;
    }
    for i := 0 to |calls|
      invariant BatchSettled(calls, trace, results) && |results| == i
      invariant AllFail(results) && CallEnds(trace) == EndsOf(results) && CallStarts(trace) == []
    {
      var f := Finalized(calls[i], ErrorResult("duplicate tool call IDs"), true);
      trace, results := Settle(calls, trace, results, f);
    }
  }

  /** A message cut by the output limit: every call fails in place. */
  method FailTruncated(calls: seq<ToolCall>) returns (trace: seq<Event>, results: seq<ResultMessage>)
    ensures BatchSettled(calls, trace, results) && |results| == |calls|
    ensures AllFail(results) && CallEnds(trace) == EndsOf(results)
    ensures CallStarts(trace) == if Ambiguous(calls) then [] else Ids(calls)
  {
    var rejected;
    rejected, trace, results := RejectAmbiguousBatch(calls);
    if rejected {
      return;
    }
    for i := 0 to |calls|
      invariant BatchSettled(calls, trace, results) && |results| == i
      invariant AllFail(results) && CallEnds(trace) == EndsOf(results) && CallStarts(trace) == Ids(calls)[..i]
    {
      assert Ids(calls)[..i + 1] == Ids(calls)[..i] + [calls[i].id];
      trace, results := FailInPlace(calls, trace, results);
    }
    assert Ids(calls)[..|calls|] == Ids(calls);
  }

  /** The next call of a truncated message. */
  method FailInPlace(calls: seq<ToolCall>, trace: seq<Event>, results: seq<ResultMessage>)
    returns (trace': seq<Event>, results': seq<ResultMessage>)
    requires BatchSettled(calls, trace, results) && |results| < |calls|
    requires AllFail(results) && CallEnds(trace) == EndsOf(results)
    ensures BatchSettled(calls, trace', results') && |results'| == |results| + 1
    ensures AllFail(results') && CallEnds(trace') == EndsOf(results')
    ensures CallStarts(trace') == CallStarts(trace) + [calls[|results|].id]
  {
    var call := calls[|results|];
    trace' := Emit(trace, ToolStart(call.id));
    var f := Finalized(call, ErrorResult("output token limit"), true);
    trace', results' := Settle(calls, trace', results, f);
  }

  function Ids(calls: seq<ToolCall>): seq<string> {
    seq(|calls|, i requires 0 <= i < |calls| => calls[i].id)
  }

  // ----- one call -----

  /** `prepare_tool_call`: a call that cannot be correlated, was recorded upstream, is refused or blocked, or comes
      after cancellation never becomes ready; any other one does. `cancelled` is the token when preparation begins, and
      `cancelledAfter` when it was last looked at. */
  method PrepareToolCall(call: ToolCall, script: Script, cancelled: bool) returns (p: Prepared, cancelledAfter: bool)
    ensures cancelled ==> cancelledAfter
    ensures p.Immediate? ==> CameTo(call, script, false, cancelledAfter, p.result, p.isError)
    ensures p.Ready? ==>
              && !InvalidCall(call) && call.recorded.None? && script.refusal.None? && !cancelledAfter
              && (script.before.Some? ==> !script.before.value.blocked)
              && p.arguments == if script.before.Some? && script.before.value.replacement.Some?
                                then script.before.value.replacement.value else script.arguments
  {
    cancelledAfter := cancelled;
    if InvalidCall(call) {
      return Immediate(ErrorResult("rejected"), true), cancelledAfter;
    }
    if call.recorded.Some? {
      return Immediate(script.recording.result, script.recording.isError), cancelledAfter;
    }
    if script.refusal.Some? {
      return Immediate(ErrorResult(script.refusal.value), true), cancelledAfter;
    }
    var arguments := script.arguments;
    if script.before.Some? {
      var raised: bool := *;
      cancelledAfter := cancelledAfter || raised;
      if cancelledAfter {
        return Immediate(ErrorResult("Operation aborted"), true), cancelledAfter;
      }
      var hook := script.before.value;
      if hook.replacement.Some? {
        arguments := hook.replacement.value;
      }
      if hook.blocked {
        return Immediate(ToolResult("Tool execution was blocked", hook.terminate), true), cancelledAfter;
      }
    }
    var raised: bool := *;
    cancelledAfter := cancelledAfter || raised;
    if cancelledAfter {
      return Immediate(ErrorResult("Operation aborted"), true), cancelledAfter;
    }
    p := Ready(arguments);
  }

  /** Execution with its hooks, or the error that stands for a panic. */
  method ExecuteAndFinalize(call: ToolCall, script: Script) returns (f: Finalized)
    ensures f == Finalized(call, script.execution.result, script.execution.isError)
  {
    f := Finalized(call, script.execution.result, script.execution.isError);
  }

  /** Updates that running tools report while something else happens. */
  method Updates(ids: set<string>) returns (updates: seq<Event>)
    ensures forall e | e in updates :: e.ToolUpdate? && e.id in ids
  {
    updates := [];
    var n: nat :| true;
    for i := 0 to n
      invariant forall e | e in updates :: e.ToolUpdate? && e.id in ids
    {
      if ids != {} {
        var id :| id in ids;
        updates := updates + [ToolUpdate(id)];
      }
    }
  }

  /** A call starts only when every call before it has ended and has its result message. */
  predicate OneAtATime(trace: seq<Event>) {
    trace == [] ||
    (var rest, last := trace[..|trace| - 1], trace[|trace| - 1];
     OneAtATime(rest) && (last.ToolStart? ==> Open(rest) == {} && |CallEnds(rest)| == |Ended(rest)|))
  }

  lemma {:induction false} OneAtATimeMore(trace: seq<Event>, more: seq<Event>)
    requires OneAtATime(trace) && forall e | e in more :: !e.ToolStart?
    ensures OneAtATime(trace + more)
    decreases |more|
  {
    if more == [] {
      assert trace + more == trace;
    } else {
      assert (trace + more)[..|trace + more| - 1] == trace + more[..|more| - 1];
      assert more[|more| - 1] in more && forall e | e in more[..|more| - 1] :: e in more;
      OneAtATimeMore(trace, more[..|more| - 1]);
    }
  }

  lemma NextStarts(trace: seq<Event>, id: string)
    requires OneAtATime(trace) && Open(trace) == {} && |CallEnds(trace)| == |Ended(trace)|
    ensures OneAtATime(trace + [ToolStart(id)])
  {
    assert (trace + [ToolStart(id)])[..|trace|] == trace;
  }

  /** A batch whose calls run one by one: they end in source order, each before the next starts, and each result is what
      its own call came to. */
  method ExecuteSequential(calls: seq<ToolCall>, plan: seq<Script>, cancelledBefore: bool)
    returns (trace: seq<Event>, results: seq<ResultMessage>, terminate: bool, cancelled: bool,
             ghost executed: set<nat>)
    requires |plan| == |calls|
    ensures BatchSettled(calls, trace, results)
    ensures OneAtATime(trace) && CallEnds(trace) == EndsOf(results)
    ensures CallStarts(trace) == StartsOf(calls, |results|)
    ensures ResultsCame(calls, plan, executed, cancelled, results)
    ensures terminate <==> AllTerminate(results)
    ensures !cancelled ==> |results| == |calls|
    ensures calls != [] ==> results != []
    ensures cancelledBefore ==> cancelled && executed == {} && (results != [] ==> StartsOf(calls, |results| - 1) == [])
    ensures |results| < |calls| ==> StartOf(calls[|results| - 1]) != []
  {
    trace, results, cancelled, executed := [], [], cancelledBefore, {};
    var finalized: seq<Finalized> := [];
    InSequenceStart(calls, plan, cancelled);
    for i := 0 to |calls|
      invariant |results| == i && InSequence(calls, plan, trace, results, finalized, executed, cancelled)
      invariant cancelledBefore ==> cancelled && executed == {} && StartsOf(calls, i) == []
    {
      trace, results, finalized, cancelled, executed :=
        SequentialStep(calls, plan, trace, results, finalized, cancelled, executed);
      if cancelled && !InvalidCall(calls[i]) {
        break;
      }
    }
    terminate := ShouldTerminate(finalized);
    SameTermination(finalized, results);
  }

  lemma InSequenceStart(calls: seq<ToolCall>, plan: seq<Script>, cancelled: bool)
    requires |plan| == |calls|
    ensures InSequence(calls, plan, [], [], [], {}, cancelled)
  {
  }

  /** A sequential batch under way. */
  ghost predicate InSequence(calls: seq<ToolCall>, plan: seq<Script>, trace: seq<Event>, results: seq<ResultMessage>,
                             finalized: seq<Finalized>, executed: set<nat>, cancelled: bool) {
    && BatchSettled(calls, trace, results) && SameResults(finalized, results)
    && OneAtATime(trace) && CallEnds(trace) == EndsOf(results) && CallStarts(trace) == StartsOf(calls, |results|)
    && ResultsCame(calls, plan, executed, cancelled, results)
  }

  /** The next call of a sequential batch. */
  method SequentialStep(calls: seq<ToolCall>, plan: seq<Script>, trace: seq<Event>, results: seq<ResultMessage>,
                        finalized: seq<Finalized>, cancelled: bool, ghost executed: set<nat>)
    returns (trace': seq<Event>, results': seq<ResultMessage>, finalized': seq<Finalized>, cancelled': bool,
             ghost executed': set<nat>)
    requires InSequence(calls, plan, trace, results, finalized, executed, cancelled) && |results| < |calls|
    ensures InSequence(calls, plan, trace', results', finalized', executed', cancelled')
    ensures |results'| == |results| + 1 && (cancelled ==> cancelled' && executed' == executed)
  {
    var f;
    ghost var ran;
    trace', f, cancelled', ran := RunOne(calls[|results|], plan[|results|], trace, cancelled);
    OneMoreCame(calls, plan, executed, cancelled, cancelled', results, f, ran);
    SameResultsMore(finalized, results, f);
    executed' := if ran then executed + {|results|} else executed;
    trace', results' := SettleNext(calls, trace', results, f);
    finalized' := finalized + [f];
  }

  /** Each result of a batch is what its own call came to; `executed` are the calls that ran. */
  ghost predicate ResultsCame(calls: seq<ToolCall>, plan: seq<Script>, executed: set<nat>, cancelled: bool,
                              results: seq<ResultMessage>) {
    && |results| <= |calls| == |plan|
    && (forall i | i in executed :: i < |results|)
    && forall i | 0 <= i < |results| ::
         CameTo(calls[i], plan[i], i in executed, cancelled, results[i].result, results[i].isError)
  }

  lemma OneMoreCame(calls: seq<ToolCall>, plan: seq<Script>, executed: set<nat>, before: bool, cancelled: bool,
                    results: seq<ResultMessage>, f: Finalized, ran: bool)
    requires ResultsCame(calls, plan, executed, before, results) && (before ==> cancelled) && |results| < |calls|
    requires CameTo(calls[|results|], plan[|results|], ran, cancelled, f.result, f.isError)
    ensures ResultsCame(calls, plan, if ran then executed + {|results|} else executed, cancelled,
                        results + [ResultMessage(f.call.id, f.call.name, f.result, f.isError)])
  {
    forall i | 0 <= i < |results|
      ensures CameTo(calls[i], plan[i], i in executed, cancelled, results[i].result, results[i].isError)
    {
      assert CameTo(calls[i], plan[i], i in executed, before, results[i].result, results[i].isError);
    }
  }

  predicate SameResults(finalized: seq<Finalized>, results: seq<ResultMessage>) {
    && |finalized| == |results|
    && forall k | 0 <= k < |results| :: finalized[k].result == results[k].result
  }

  lemma SameResultsMore(finalized: seq<Finalized>, results: seq<ResultMessage>, f: Finalized)
    requires SameResults(finalized, results)
    ensures SameResults(finalized + [f], results + [ResultMessage(f.call.id, f.call.name, f.result, f.isError)])
  {
  }

  lemma SameTermination(finalized: seq<Finalized>, results: seq<ResultMessage>)
    requires SameResults(finalized, results)
    ensures ShouldTerminate(finalized) <==> AllTerminate(results)
  {
    if ShouldTerminate(finalized) {
      forall r | r in results ensures r.result.terminate {
        var k :| 0 <= k < |results| && results[k] == r;
        assert finalized[k] in finalized;
      }
    }
    if AllTerminate(results) {
      forall f | f in finalized ensures f.result.terminate {
        var k :| 0 <= k < |finalized| && finalized[k] == f;
        assert results[k] in results;
      }
    }
  }

  /** One call of a sequential batch, up to its end event. */
  method RunOne(call: ToolCall, script: Script, trace: seq<Event>, cancelledBefore: bool)
    returns (trace': seq<Event>, f: Finalized, cancelled: bool, ghost ran: bool)
    requires AllInner(trace) && Open(trace) == {} && OneAtATime(trace) && |CallEnds(trace)| == |Ended(trace)|
    ensures AllInner(trace') && Open(trace') <= {call.id} && OneAtATime(trace')
    ensures Ended(trace') == Ended(trace) && CallEnds(trace') == CallEnds(trace)
    ensures CallStarts(trace') == CallStarts(trace) + StartOf(call)
    ensures f.call == call && (cancelledBefore ==> cancelled && !ran)
    ensures CameTo(call, script, ran, cancelled, f.result, f.isError)
  {
    trace', cancelled, ran := trace, cancelledBefore, false;
    if InvalidCall(call) {
      f := Finalized(call, ErrorResult("rejected"), true);
    } else {
      NextStarts(trace, call.id);
      trace' := Emit(trace, ToolStart(call.id));
      var p;
      p, cancelled := PrepareToolCall(call, script, cancelled);
      if p.Immediate? {
        f := Finalized(call, p.result, p.isError);
      } else {
        var updates := Updates({call.id});
        AppendSilent(trace', updates);
        OneAtATimeMore(trace', updates);
        trace' := trace' + updates;
        f := ExecuteAndFinalize(call, script);
        ran := true;
      }
      var raised: bool := *;
      cancelled := cancelled || raised;
    }
  }

  /** The end event and the result message of a call of a sequential batch. */
  method SettleNext(calls: seq<ToolCall>, trace: seq<Event>, results: seq<ResultMessage>, f: Finalized)
    returns (trace': seq<Event>, results': seq<ResultMessage>)
    requires AllInner(trace) && Ended(trace) == ToolMessages(results) && Open(trace) <= {f.call.id}
    requires |results| < |calls| && f.call == calls[|results|]
    requires forall i | 0 <= i < |results| :: results[i].id == calls[i].id && results[i].name == calls[i].name
    requires OneAtATime(trace) && CallEnds(trace) == EndsOf(results)
    ensures BatchSettled(calls, trace', results')
    ensures results' == results + [ResultMessage(f.call.id, f.call.name, f.result, f.isError)]
    ensures OneAtATime(trace') && CallEnds(trace') == EndsOf(results') && CallStarts(trace') == CallStarts(trace)
  {
    trace', results' := Settle(calls, trace, results, f);
    var m := Tool(ResultOf(f));
    OneAtATimeMore(trace, [EndOf(f), MessageStart(m), MessageEnd(m)]);
  }

  // ----- the parallel batch -----

  function Indices(completed: Completed): seq<nat> {
    seq(|completed|, n requires 0 <= n < |completed| => completed[n].0)
  }

  /** Every index below `|finalized|` is in exactly one place: running, completed, finalized, or in `busy`
      (being prepared, or its end event being delivered). */
  ghost predicate Accounted(calls: seq<ToolCall>, running: Running, completed: Completed,
                            finalized: seq<Option<Finalized>>, busy: set<nat>) {
    && |finalized| <= |calls|
    && (forall i | i in running ::
          i < |finalized| && finalized[i].None? && i !in busy && running[i] == calls[i])
    && (forall n | 0 <= n < |completed| ::
          var i := completed[n].0;
          i < |finalized| && finalized[i].None? && i !in busy && i !in running && completed[n].1.call == calls[i])
    && (forall m, n | 0 <= m < n < |completed| :: completed[m].0 != completed[n].0)
    && (forall i | i in busy :: i < |finalized| && finalized[i].None?)
    && (forall i | 0 <= i < |finalized| && finalized[i].Some? :: finalized[i].value.call == calls[i])
    && (forall i | 0 <= i < |finalized| && finalized[i].None? ::
          i in running || i in busy || exists n | 0 <= n < |completed| :: completed[n].0 == i)
  }

  /** The members of `s` that are in `keep`, in order. */
  function OnlyIn(s: seq<nat>, keep: set<nat>): seq<nat> {
    if s == [] then []
    else
      var rest := OnlyIn(s[..|s| - 1], keep);
      if s[|s| - 1] in keep then rest + [s[|s| - 1]] else rest
  }

  lemma OnlyInAppend(s: seq<nat>, i: nat, keep: set<nat>)
    ensures OnlyIn(s + [i], keep) == OnlyIn(s, keep) + (if i in keep then [i] else [])
  {
    assert (s + [i])[..|s|] == s;
  }

  lemma {:induction false} OnlyInMore(s: seq<nat>, i: nat, keep: set<nat>)
    requires i !in s
    ensures OnlyIn(s, keep + {i}) == OnlyIn(s, keep)
  {
    if s != [] {
      assert s[|s| - 1] in s && forall k | k in s[..|s| - 1] :: k in s;
      OnlyInMore(s[..|s| - 1], i, keep);
    }
  }

  /** A parallel batch under way. The last three fields are its history: the indices whose end event was
      delivered, the order in which executed calls completed, and the calls that were executed. */
  datatype Batch = Batch(running: Running, completed: Completed, finalized: seq<Option<Finalized>>,
                         trace: seq<Event>, ends: seq<nat>, order: seq<nat>, executed: set<nat>)

  /** End events match `ends`, one for each index whose call is finalized or just `delivered`. */
  ghost predicate EndsMatch(calls: seq<ToolCall>, trace: seq<Event>, ends: seq<nat>,
                            finalized: seq<Option<Finalized>>, delivered: map<nat, Finalized>)
    requires |finalized| <= |calls|
  {
    && |CallEnds(trace)| == |ends|
    && (forall n | 0 <= n < |ends| ::
          && ends[n] < |finalized|
          && (finalized[ends[n]].Some? ==> CallEnds(trace)[n] == EndOf(finalized[ends[n]].value))
          && (finalized[ends[n]].None? && ends[n] in delivered ==> CallEnds(trace)[n] == EndOf(delivered[ends[n]])))
    && (forall m, n | 0 <= m < n < |ends| :: ends[m] != ends[n])
    && (forall i: nat :: i in ends <==> i < |finalized| && (finalized[i].Some? || i in delivered))
  }

  /** Only calls that have not ended can be open. */
  ghost predicate OpenPending(calls: seq<ToolCall>, trace: seq<Event>,
                              finalized: seq<Option<Finalized>>, delivered: map<nat, Finalized>)
    requires |finalized| <= |calls|
  {
    && AllInner(trace) && Ended(trace) == []
    && forall id | id in Open(trace) ::
         exists i | 0 <= i < |finalized| :: finalized[i].None? && i !in delivered && calls[i].id == id
  }

  /** Executed calls end in the order in which they completed; `inFlight` has left the queue but not ended. */
  ghost predicate OrderKept(b: Batch, inFlight: seq<nat>) {
    && b.order == OnlyIn(b.ends, b.executed) + inFlight + Indices(b.completed)
    && (forall i | i in b.running :: i in b.executed)
    && (forall i | i in b.order :: i in b.executed)
    && (forall i | i in b.executed :: i < |b.finalized|)
  }

  ghost predicate BatchInv(calls: seq<ToolCall>, b: Batch, busy: set<nat>, delivered: map<nat, Finalized>,
                           inFlight: seq<nat>) {
    && Accounted(calls, b.running, b.completed, b.finalized, busy)
    && delivered.Keys <= busy
    && EndsMatch(calls, b.trace, b.ends, b.finalized, delivered)
    && OpenPending(calls, b.trace, b.finalized, delivered)
    && OrderKept(b, inFlight)
  }

  /** Every call that has completed or is finalized came to what the world had in store for it. */
  ghost predicate Planned(calls: seq<ToolCall>, plan: seq<Script>, b: Batch, cancelled: bool) {
    && |plan| == |calls|
    && (forall n | 0 <= n < |b.completed| :: Came(calls, plan, b, cancelled, b.completed[n].0, b.completed[n].1))
    && (forall i | 0 <= i < |b.finalized| && b.finalized[i].Some? ::
          Came(calls, plan, b, cancelled, i, b.finalized[i].value))
    && (forall i | i in b.running :: Runs(calls, plan, i))
  }

  ghost predicate Came(calls: seq<ToolCall>, plan: seq<Script>, b: Batch, cancelled: bool, i: nat, f: Finalized) {
    i < |calls| && i < |plan| && CameTo(calls[i], plan[i], i in b.executed, cancelled, f.result, f.isError)
  }

  /** A call that nothing kept from running. */
  predicate Runs(calls: seq<ToolCall>, plan: seq<Script>, i: nat) {
    && i < |calls| && i < |plan|
    && !InvalidCall(calls[i]) && calls[i].recorded.None? && plan[i].refusal.None?
    && (plan[i].before.Some? ==> !plan[i].before.value.blocked)
  }

  /** A running call completes: it moves to the end of the completed queue. */
  function CompleteOne(b: Batch, j: nat, f: Finalized): Batch {
    b.(running := b.running - {j}, completed := b.completed + [(j, f)], order := b.order + [j])
  }

  lemma CompleteOneAccounted(calls: seq<ToolCall>, b: Batch, busy: set<nat>, j: nat, f: Finalized)
    requires Accounted(calls, b.running, b.completed, b.finalized, busy) && j in b.running && f.call == b.running[j]
    ensures var b' := CompleteOne(b, j, f); Accounted(calls, b'.running, b'.completed, b'.finalized, busy)
  {
    var b' := CompleteOne(b, j, f);
    assert b'.completed[|b.completed|] == (j, f);
    assert forall n | 0 <= n < |b.completed| :: b'.completed[n] == b.completed[n];
  }

  lemma CompleteOneOrder(b: Batch, j: nat, f: Finalized, inFlight: seq<nat>)
    requires OrderKept(b, inFlight) && j in b.running
    ensures OrderKept(CompleteOne(b, j, f), inFlight)
  {
    var b' := CompleteOne(b, j, f);
    assert Indices(b'.completed) == Indices(b.completed) + [j];
    assert b'.order == OnlyIn(b.ends, b.executed) + inFlight + Indices(b'.completed);
  }

  lemma CompleteOneKeeps(calls: seq<ToolCall>, b: Batch, busy: set<nat>, delivered: map<nat, Finalized>,
                         inFlight: seq<nat>, j: nat, f: Finalized)
    requires BatchInv(calls, b, busy, delivered, inFlight) && j in b.running && f.call == b.running[j]
    ensures BatchInv(calls, CompleteOne(b, j, f), busy, delivered, inFlight)
    ensures Pending(CompleteOne(b, j, f)) == Pending(b)
  {
    var b' := CompleteOne(b, j, f);
    assert b'.running.Keys == b.running.Keys - {j};
    CompleteOneAccounted(calls, b, busy, j, f);
    CompleteOneOrder(b, j, f, inFlight);
  }

  lemma CompleteOnePlanned(calls: seq<ToolCall>, plan: seq<Script>, b: Batch, cancelled: bool, busy: set<nat>,
                           delivered: map<nat, Finalized>, inFlight: seq<nat>, j: nat, f: Finalized)
    requires BatchInv(calls, b, busy, delivered, inFlight) && Planned(calls, plan, b, cancelled) && j in b.running
    requires f == Finalized(b.running[j], plan[j].execution.result, plan[j].execution.isError)
    ensures Planned(calls, plan, CompleteOne(b, j, f), cancelled)
  {
    var b' := CompleteOne(b, j, f);
    assert b'.completed[|b.completed|] == (j, f) && Runs(calls, plan, j);
    assert Came(calls, plan, b', cancelled, j, f);
    assert forall n | 0 <= n < |b.completed| :: b'.completed[n] == b.completed[n];
  }

  /** Calls that are running or wait for their end event. */
  function Pending(b: Batch): nat {
    |b.running.Keys| + |b.completed|
  }

  lemma UpdateKeeps(calls: seq<ToolCall>, b: Batch, busy: set<nat>, delivered: map<nat, Finalized>,
                    inFlight: seq<nat>, e: Event)
    requires BatchInv(calls, b, busy, delivered, inFlight) && e.ToolUpdate?
    ensures BatchInv(calls, b.(trace := b.trace + [e]), busy, delivered, inFlight)
  {
    Append(b.trace, e);
    var b' := b.(trace := b.trace + [e]);
    assert EndsMatch(calls, b'.trace, b'.ends, b'.finalized, delivered);
    assert OpenPending(calls, b'.trace, b'.finalized, delivered);
    assert OrderKept(b', inFlight);
  }

  /** `drive_tool_calls_while`: any number of running calls complete, in any order, and report updates. */
  method Drive(b: Batch, ghost calls: seq<ToolCall>, plan: seq<Script>, ghost cancelled: bool, ghost busy: set<nat>,
               ghost delivered: map<nat, Finalized>, ghost inFlight: seq<nat>) returns (b': Batch)
    requires BatchInv(calls, b, busy, delivered, inFlight) && Planned(calls, plan, b, cancelled)
    ensures BatchInv(calls, b', busy, delivered, inFlight) && Planned(calls, plan, b', cancelled)
    ensures b'.finalized == b.finalized && b'.ends == b.ends && b'.executed == b.executed
    ensures Pending(b') == Pending(b) && CallStarts(b'.trace) == CallStarts(b.trace)
  {
    b' := b;
    var n: nat :| true;
    for k := 0 to n
      invariant BatchInv(calls, b', busy, delivered, inFlight) && Planned(calls, plan, b', cancelled)
      invariant b'.finalized == b.finalized && b'.ends == b.ends && b'.executed == b.executed
      invariant Pending(b') == Pending(b) && CallStarts(b'.trace) == CallStarts(b.trace)
    {
      if b'.running.Keys != {} {
        b' := DriveOne(b', calls, plan, cancelled, busy, delivered, inFlight);
      }
    }
  }

  method DriveOne(b: Batch, ghost calls: seq<ToolCall>, plan: seq<Script>, ghost cancelled: bool, ghost busy: set<nat>,
                  ghost delivered: map<nat, Finalized>, ghost inFlight: seq<nat>) returns (b': Batch)
    requires BatchInv(calls, b, busy, delivered, inFlight) && Planned(calls, plan, b, cancelled)
    requires b.running.Keys != {}
    ensures BatchInv(calls, b', busy, delivered, inFlight) && Planned(calls, plan, b', cancelled)
    ensures b'.finalized == b.finalized && b'.ends == b.ends && b'.executed == b.executed
    ensures Pending(b') == Pending(b) && CallStarts(b'.trace) == CallStarts(b.trace)
  {
    var j :| j in b.running;
    var completes: bool := *;
    if completes {
      assert Runs(calls, plan, j);
      var f := ExecuteAndFinalize(b.running[j], plan[j]);
      CompleteOnePlanned(calls, plan, b, cancelled, busy, delivered, inFlight, j, f);
      CompleteOneKeeps(calls, b, busy, delivered, inFlight, j, f);
      b' := CompleteOne(b, j, f);
    } else {
      UpdateKeeps(calls, b, busy, delivered, inFlight, ToolUpdate(b.running[j].id));
      Append(b.trace, ToolUpdate(b.running[j].id));
      b' := b.(trace := b.trace + [ToolUpdate(b.running[j].id)]);
      SamePlanned(calls, plan, b, b', cancelled);
    }
  }

  /** The end event of call `i` goes out. */
  function EndOne(b: Batch, i: nat, f: Finalized): Batch {
    b.(trace := b.trace + [EndOf(f)], ends := b.ends + [i])
  }

  lemma EndOneKeeps(calls: seq<ToolCall>, b: Batch, i: nat, f: Finalized)
    requires BatchInv(calls, b, {i}, map[], if i in b.executed then [i] else [])
    requires f.call == calls[i]
    ensures BatchInv(calls, EndOne(b, i, f), {i}, map[i := f], [])
  {
    var b' := EndOne(b, i, f);
    Append(b.trace, EndOf(f));
    OnlyInAppend(b.ends, i, b.executed);
    assert OrderKept(b', []);
    EndOneMatches(calls, b, i, f);
    EndOneOpen(calls, b, i, f);
  }

  lemma EndOneMatches(calls: seq<ToolCall>, b: Batch, i: nat, f: Finalized)
    requires i < |b.finalized| <= |calls| && b.finalized[i].None? && f.call == calls[i]
    requires EndsMatch(calls, b.trace, b.ends, b.finalized, map[])
    ensures var b' := EndOne(b, i, f); EndsMatch(calls, b'.trace, b'.ends, b'.finalized, map[i := f])
  {
    Append(b.trace, EndOf(f));
    assert i !in b.ends;
  }

  lemma EndOneOpen(calls: seq<ToolCall>, b: Batch, i: nat, f: Finalized)
    requires i < |b.finalized| <= |calls| && f.call == calls[i]
    requires OpenPending(calls, b.trace, b.finalized, map[])
    ensures var b' := EndOne(b, i, f); OpenPending(calls, b'.trace, b'.finalized, map[i := f])
  {
    Append(b.trace, EndOf(f));
  }

  lemma FinalizeKeeps(calls: seq<ToolCall>, b: Batch, i: nat, f: Finalized)
    requires BatchInv(calls, b, {i}, map[i := f], []) && f.call == calls[i]
    ensures BatchInv(calls, b.(finalized := b.finalized[i := Some(f)]), {}, map[], [])
  {
    var b' := b.(finalized := b.finalized[i := Some(f)]);
    assert forall k | 0 <= k < |b.finalized| && k != i :: b'.finalized[k] == b.finalized[k];
    assert Accounted(calls, b'.running, b'.completed, b'.finalized, {});
  }

  /** The end event of call `i` is delivered while the others keep running; then the call is finalized. */
  method Deliver(b: Batch, i: nat, f: Finalized, ghost calls: seq<ToolCall>, plan: seq<Script>, ghost cancelled: bool)
    returns (b': Batch)
    requires BatchInv(calls, b, {i}, map[], if i in b.executed then [i] else [])
    requires f.call == calls[i] && Planned(calls, plan, b, cancelled) && Came(calls, plan, b, cancelled, i, f)
    ensures BatchInv(calls, b', {}, map[], []) && Planned(calls, plan, b', cancelled)
    ensures b'.finalized == b.finalized[i := Some(f)] && b'.executed == b.executed
    ensures Pending(b') == Pending(b) && CallStarts(b'.trace) == CallStarts(b.trace)
  {
    b' := SendEnd(b, i, f, calls, plan, cancelled);
    b' := Drive(b', calls, plan, cancelled, {i}, map[i := f], []);
    FinalizeKeeps(calls, b', i, f);
    FinalizePlanned(calls, plan, b', i, f, cancelled);
    b' := b'.(finalized := b'.finalized[i := Some(f)]);
  }

  method SendEnd(b: Batch, i: nat, f: Finalized, ghost calls: seq<ToolCall>, plan: seq<Script>, ghost cancelled: bool)
    returns (b': Batch)
    requires BatchInv(calls, b, {i}, map[], if i in b.executed then [i] else [])
    requires f.call == calls[i] && Planned(calls, plan, b, cancelled)
    ensures BatchInv(calls, b', {i}, map[i := f], []) && Planned(calls, plan, b', cancelled)
    ensures b'.finalized == b.finalized && b'.executed == b.executed && Pending(b') == Pending(b)
    ensures CallStarts(b'.trace) == CallStarts(b.trace)
  {
    b' := Drive(b, calls, plan, cancelled, {i}, map[], if i in b.executed then [i] else []);
    Append(b'.trace, EndOf(f));
    EndOneKeeps(calls, b', i, f);
    SamePlanned(calls, plan, b', EndOne(b', i, f), cancelled);
    b' := EndOne(b', i, f);
  }

  lemma FinalizePlanned(calls: seq<ToolCall>, plan: seq<Script>, b: Batch, i: nat, f: Finalized, cancelled: bool)
    requires Planned(calls, plan, b, cancelled) && Came(calls, plan, b, cancelled, i, f) && i < |b.finalized|
    ensures Planned(calls, plan, b.(finalized := b.finalized[i := Some(f)]), cancelled)
  {
    var b' := b.(finalized := b.finalized[i := Some(f)]);
    forall n | 0 <= n < |b.completed| ensures Came(calls, plan, b', cancelled, b.completed[n].0, b.completed[n].1) {
      assert Came(calls, plan, b, cancelled, b.completed[n].0, b.completed[n].1);
    }
    forall k | 0 <= k < |b'.finalized| && b'.finalized[k].Some?
      ensures Came(calls, plan, b', cancelled, k, b'.finalized[k].value)
    {
      if k == i {
        assert Came(calls, plan, b, cancelled, i, f);
      } else {
        assert Came(calls, plan, b, cancelled, k, b.finalized[k].value);
      }
    }
  }

  const EMPTY_BATCH := Batch(map[], [], [], [], [], [], {})

  /** The slot of the next call is opened. */
  lemma OpenSlotKeeps(calls: seq<ToolCall>, b: Batch)
    requires BatchInv(calls, b, {}, map[], []) && |b.finalized| < |calls|
    ensures BatchInv(calls, b.(finalized := b.finalized + [None]), {|b.finalized|}, map[], [])
  {
    var b' := b.(finalized := b.finalized + [None]);
    assert forall k | 0 <= k < |b.finalized| :: b'.finalized[k] == b.finalized[k];
    assert EndsMatch(calls, b'.trace, b'.ends, b'.finalized, map[]);
    assert OpenPending(calls, b'.trace, b'.finalized, map[]);
  }

  lemma StartOneKeeps(calls: seq<ToolCall>, b: Batch, i: nat)
    requires BatchInv(calls, b, {i}, map[], [])
    ensures BatchInv(calls, b.(trace := b.trace + [ToolStart(calls[i].id)]), {i}, map[], [])
  {
    var b' := b.(trace := b.trace + [ToolStart(calls[i].id)]);
    Append(b.trace, ToolStart(calls[i].id));
    assert EndsMatch(calls, b'.trace, b'.ends, b'.finalized, map[]);
    assert OpenPending(calls, b'.trace, b'.finalized, map[]);
  }

  /** The prepared call starts running. */
  lemma RunOneKeeps(calls: seq<ToolCall>, b: Batch, i: nat)
    requires BatchInv(calls, b, {i}, map[], []) && i !in b.executed
    ensures BatchInv(calls, b.(running := b.running[i := calls[i]], executed := b.executed + {i}), {}, map[], [])
  {
    var b' := b.(running := b.running[i := calls[i]], executed := b.executed + {i});
    assert i !in b.ends;
    OnlyInMore(b.ends, i, b.executed);
    assert OrderKept(b', []);
    assert Accounted(calls, b'.running, b'.completed, b'.finalized, {});
  }

  /** The oldest completed call leaves the queue. */
  lemma PopKeeps(calls: seq<ToolCall>, b: Batch)
    requires BatchInv(calls, b, {}, map[], []) && b.completed != []
    ensures var i := b.completed[0].0;
            i in b.executed && BatchInv(calls, b.(completed := b.completed[1..]), {i}, map[], [i])
  {
    var i := b.completed[0].0;
    var b' := b.(completed := b.completed[1..]);
    PopAccounted(calls, b);
    assert i in b.executed && OrderKept(b', [i]) by {
      assert Indices(b.completed) == [i] + Indices(b'.completed);
      assert i in b.order;
    }
  }

  lemma PopAccounted(calls: seq<ToolCall>, b: Batch)
    requires Accounted(calls, b.running, b.completed, b.finalized, {}) && b.completed != []
    ensures Accounted(calls, b.running, b.completed[1..], b.finalized, {b.completed[0].0})
  {
    var i, rest := b.completed[0].0, b.completed[1..];
    forall k | 0 <= k < |b.finalized| && b.finalized[k].None? && k != i && k !in b.running
      ensures exists n | 0 <= n < |rest| :: rest[n].0 == k
    {
      var n :| 0 <= n < |b.completed| && b.completed[n].0 == k;
      assert rest[n - 1].0 == k;
    }
  }

  /** A running call completes while the loop waits for it: it is ended at once. */
  lemma CompleteNowKeeps(calls: seq<ToolCall>, b: Batch, j: nat, f: Finalized)
    requires BatchInv(calls, b, {}, map[], []) && b.completed == [] && j in b.running && f.call == b.running[j]
    ensures j in b.executed
    ensures BatchInv(calls, b.(running := b.running - {j}, order := b.order + [j]), {j}, map[], [j])
    ensures Pending(b.(running := b.running - {j}, order := b.order + [j])) == Pending(b) - 1
  {
    CompleteOneKeeps(calls, b, {}, map[], [], j, f);
    PopKeeps(calls, CompleteOne(b, j, f));
    assert CompleteOne(b, j, f).completed[1..] == [];
  }

  /** The next call is prepared while the others run; then it is answered at once or starts running. */
  method PrepareNext(calls: seq<ToolCall>, plan: seq<Script>, b: Batch, cancelledBefore: bool)
    returns (b': Batch, cancelled: bool)
    requires BatchInv(calls, b, {}, map[], []) && |b.finalized| < |calls| && Planned(calls, plan, b, cancelledBefore)
    ensures BatchInv(calls, b', {}, map[], []) && |b'.finalized| == |b.finalized| + 1
    ensures Planned(calls, plan, b', cancelled)
    ensures b'.executed <= b.executed + {|b.finalized|}
    ensures CallStarts(b'.trace) == CallStarts(b.trace) + StartOf(calls[|b.finalized|])
    ensures cancelledBefore ==> cancelled && b'.executed == b.executed
  {
    var i := |b.finalized|;
    cancelled := cancelledBefore;
    OpenSlotKeeps(calls, b);
    b' := b.(finalized := b.finalized + [None]);
    assert i !in b.executed;
    var p;
    b', p, cancelled := StartAndPrepare(calls, plan, b', i, cancelled);
    SlotPlanned(calls, plan, b, b', cancelledBefore, cancelled);
    b' := Drive(b', calls, plan, cancelled, {i}, map[], []);
    b' := Launch(calls, plan, b', i, p, cancelled);
  }

  /** The start event of a call, if it is valid, and its preparation. */
  method StartAndPrepare(calls: seq<ToolCall>, plan: seq<Script>, b: Batch, i: nat, cancelledBefore: bool)
    returns (b': Batch, p: Prepared, cancelled: bool)
    requires BatchInv(calls, b, {i}, map[], []) && i < |calls| == |plan|
    ensures BatchInv(calls, b', {i}, map[], []) && b' == b.(trace := b'.trace)
    ensures CallStarts(b'.trace) == CallStarts(b.trace) + StartOf(calls[i])
    ensures cancelledBefore ==> cancelled && p.Immediate?
    ensures p.Immediate? ==> CameTo(calls[i], plan[i], false, cancelled, p.result, p.isError)
    ensures p.Ready? ==> Runs(calls, plan, i)
  {
    b', cancelled := b, cancelledBefore;
    if InvalidCall(calls[i]) {
      p := Immediate(ErrorResult("rejected"), true);
    } else {
      StartOneKeeps(calls, b, i);
      Append(b.trace, ToolStart(calls[i].id));
      b' := b.(trace := b.trace + [ToolStart(calls[i].id)]);
      p, cancelled := PrepareToolCall(calls[i], plan[i], cancelled);
    }
  }

  lemma SlotPlanned(calls: seq<ToolCall>, plan: seq<Script>, b: Batch, b': Batch, before: bool, cancelled: bool)
    requires Planned(calls, plan, b, before) && (before ==> cancelled)
    requires b'.finalized == b.finalized + [None] && b'.completed == b.completed
    requires b'.executed == b.executed && b'.running == b.running
    ensures Planned(calls, plan, b', cancelled)
  {
    forall n | 0 <= n < |b'.completed| ensures Came(calls, plan, b', cancelled, b'.completed[n].0, b'.completed[n].1) {
      assert Came(calls, plan, b, before, b.completed[n].0, b.completed[n].1);
    }
    forall k | 0 <= k < |b'.finalized| && b'.finalized[k].Some?
      ensures Came(calls, plan, b', cancelled, k, b'.finalized[k].value)
    {
      assert Came(calls, plan, b, before, k, b.finalized[k].value);
    }
  }

  /** A prepared call is answered at once, or starts running. */
  method Launch(calls: seq<ToolCall>, plan: seq<Script>, b: Batch, i: nat, p: Prepared, ghost cancelled: bool)
    returns (b': Batch)
    requires BatchInv(calls, b, {i}, map[], []) && i !in b.executed && Planned(calls, plan, b, cancelled)
    requires p.Immediate? ==> CameTo(calls[i], plan[i], false, cancelled, p.result, p.isError)
    requires p.Ready? ==> Runs(calls, plan, i)
    ensures BatchInv(calls, b', {}, map[], []) && |b'.finalized| == |b.finalized|
    ensures b'.executed == if p.Ready? then b.executed + {i} else b.executed
    ensures CallStarts(b'.trace) == CallStarts(b.trace)
    ensures Planned(calls, plan, b', cancelled)
  {
    if p.Immediate? {
      var f := Finalized(calls[i], p.result, p.isError);
      assert Came(calls, plan, b, cancelled, i, f);
      b' := Deliver(b, i, f, calls, plan, cancelled);
    } else {
      RunOneKeeps(calls, b, i);
      RunOnePlanned(calls, plan, b, i, cancelled);
      b' := b.(running := b.running[i := calls[i]], executed := b.executed + {i});
    }
  }

  lemma RunOnePlanned(calls: seq<ToolCall>, plan: seq<Script>, b: Batch, i: nat, cancelled: bool)
    requires BatchInv(calls, b, {i}, map[], []) && Planned(calls, plan, b, cancelled) && Runs(calls, plan, i)
    ensures Planned(calls, plan, b.(running := b.running[i := calls[i]], executed := b.executed + {i}), cancelled)
  {
    var b' := b.(running := b.running[i := calls[i]], executed := b.executed + {i});
    forall n | 0 <= n < |b.completed| ensures Came(calls, plan, b', cancelled, b.completed[n].0, b.completed[n].1) {
      assert Came(calls, plan, b, cancelled, b.completed[n].0, b.completed[n].1) && b.completed[n].0 != i;
    }
    forall k | 0 <= k < |b.finalized| && b.finalized[k].Some?
      ensures Came(calls, plan, b', cancelled, k, b.finalized[k].value)
    {
      assert Came(calls, plan, b, cancelled, k, b.finalized[k].value) && k != i;
    }
  }

  /** Preparation in source order; ready calls run while later ones are prepared. */
  method PrepareAll(calls: seq<ToolCall>, plan: seq<Script>, cancelledBefore: bool) returns (b: Batch, cancelled: bool)
    requires |plan| == |calls|
    ensures BatchInv(calls, b, {}, map[], []) && Planned(calls, plan, b, cancelled)
    ensures !cancelled ==> |b.finalized| == |calls|
    ensures calls != [] ==> b.finalized != []
    ensures cancelledBefore ==> cancelled && b.executed == {} && |b.finalized| <= 1
    ensures CallStarts(b.trace) == StartsOf(calls, |b.finalized|)
  {
    b, cancelled := EMPTY_BATCH, cancelledBefore;
    while |b.finalized| < |calls|
      invariant BatchInv(calls, b, {}, map[], []) && Planned(calls, plan, b, cancelled)
      invariant cancelledBefore ==> cancelled && b.executed == {} && b.finalized == []
      invariant CallStarts(b.trace) == StartsOf(calls, |b.finalized|)
      decreases |calls| - |b.finalized|
    {
      b, cancelled := PrepareAndLook(calls, plan, b, cancelled);
      if cancelled {
        break;
      }
    }
  }

  /** The next call, and a look at the token after it. */
  method PrepareAndLook(calls: seq<ToolCall>, plan: seq<Script>, b: Batch, cancelledBefore: bool)
    returns (b': Batch, cancelled: bool)
    requires BatchInv(calls, b, {}, map[], []) && |b.finalized| < |calls| && Planned(calls, plan, b, cancelledBefore)
    requires CallStarts(b.trace) == StartsOf(calls, |b.finalized|)
    ensures BatchInv(calls, b', {}, map[], []) && Planned(calls, plan, b', cancelled)
    ensures |b'.finalized| == |b.finalized| + 1 && CallStarts(b'.trace) == StartsOf(calls, |b'.finalized|)
    ensures cancelledBefore ==> cancelled && b'.executed == b.executed
  {
    b', cancelled := PrepareNext(calls, plan, b, cancelledBefore);
    var raised: bool := *;
    PlannedLater(calls, plan, b', cancelled, cancelled || raised);
    cancelled := cancelled || raised;
  }

  lemma PlannedLater(calls: seq<ToolCall>, plan: seq<Script>, b: Batch, before: bool, cancelled: bool)
    requires Planned(calls, plan, b, before) && (before ==> cancelled)
    ensures Planned(calls, plan, b, cancelled)
  {
    forall n | 0 <= n < |b.completed| ensures Came(calls, plan, b, cancelled, b.completed[n].0, b.completed[n].1) {
      assert Came(calls, plan, b, before, b.completed[n].0, b.completed[n].1);
    }
    forall i | 0 <= i < |b.finalized| && b.finalized[i].Some?
      ensures Came(calls, plan, b, cancelled, i, b.finalized[i].value)
    {
      assert Came(calls, plan, b, before, i, b.finalized[i].value);
    }
  }

  /** `execute_tool_calls_parallel`. End events of executed calls follow completion order; result messages are
      those of a prefix of the calls in source order, and of all of them when nothing was cancelled. */
  method ExecuteParallel(calls: seq<ToolCall>, plan: seq<Script>, cancelledBefore: bool)
    returns (trace: seq<Event>, results: seq<ResultMessage>, terminate: bool, cancelled: bool,
             ends: seq<nat>, order: seq<nat>, executed: set<nat>)
    requires |plan| == |calls|
    ensures BatchSettled(calls, trace, results)
    ensures !cancelled ==> |results| == |calls|
    ensures calls != [] ==> results != []
    ensures cancelledBefore ==> cancelled && executed == {} && |results| <= 1
    // each result is what its own call came to
    ensures ResultsCame(calls, plan, executed, cancelled, results)
    ensures terminate <==> AllTerminate(results)
    // the valid ones among them started, in source order
    ensures CallStarts(trace) == StartsOf(calls, |results|)
    // every answered call ended exactly once, with its result
    ensures forall i: nat :: i in ends <==> i < |results|
    ensures forall m, n | 0 <= m < n < |ends| :: ends[m] != ends[n]
    ensures |CallEnds(trace)| == |ends|
    ensures forall n | 0 <= n < |ends| :: ends[n] < |results| && CallEnds(trace)[n] == EndsOf(results)[ends[n]]
    // completion order
    ensures OnlyIn(ends, executed) == order
  {
    var b;
    b, cancelled := PrepareAll(calls, plan, cancelledBefore);
    b := DrainAll(calls, plan, b, cancelled);
    ends, order, executed := b.ends, b.order, b.executed;
    trace, results, terminate := SettleResults(calls, b);
    var raised: bool := *;
    AllCame(calls, plan, b, cancelled, cancelled || raised, results);
    cancelled := cancelled || raised;
    EndsAnswer(calls, b, results);
  }

  ghost predicate ResultsOfBatch(calls: seq<ToolCall>, b: Batch, results: seq<ResultMessage>) {
    && |results| == |b.finalized| <= |calls|
    && (forall i | 0 <= i < |b.finalized| :: b.finalized[i].Some?)
    && forall i | 0 <= i < |results| ::
         var f := b.finalized[i].value;
         results[i] == ResultMessage(f.call.id, f.call.name, f.result, f.isError)
  }

  lemma AllCame(calls: seq<ToolCall>, plan: seq<Script>, b: Batch, before: bool, cancelled: bool,
                results: seq<ResultMessage>)
    requires BatchInv(calls, b, {}, map[], []) && Planned(calls, plan, b, before) && (before ==> cancelled)
    requires ResultsOfBatch(calls, b, results)
    ensures ResultsCame(calls, plan, b.executed, cancelled, results)
  {
    forall i | 0 <= i < |results|
      ensures CameTo(calls[i], plan[i], i in b.executed, cancelled, results[i].result, results[i].isError)
    {
      assert Came(calls, plan, b, before, i, b.finalized[i].value);
    }
  }

  lemma EndsAnswer(calls: seq<ToolCall>, b: Batch, results: seq<ResultMessage>)
    requires BatchInv(calls, b, {}, map[], []) && ResultsOfBatch(calls, b, results)
    ensures |CallEnds(b.trace)| == |b.ends|
    ensures forall i: nat :: i in b.ends <==> i < |results|
    ensures forall n | 0 <= n < |b.ends| ::
              b.ends[n] < |results| && CallEnds(b.trace)[n] == EndsOf(results)[b.ends[n]]
  {
  }

  /** The oldest completed call, or the next one to complete when none waits. */
  method TakeCompleted(calls: seq<ToolCall>, plan: seq<Script>, b: Batch, ghost cancelled: bool)
    returns (b': Batch, i: nat, f: Finalized)
    requires BatchInv(calls, b, {}, map[], []) && (b.completed != [] || b.running.Keys != {})
    requires Planned(calls, plan, b, cancelled)
    ensures i in b'.executed && BatchInv(calls, b', {i}, map[], [i]) && f.call == calls[i]
    ensures b'.finalized == b.finalized && b'.executed == b.executed && b'.ends == b.ends
    ensures Pending(b') == Pending(b) - 1 && b'.trace == b.trace
    ensures Planned(calls, plan, b', cancelled) && Came(calls, plan, b', cancelled, i, f)
  {
    if b.completed != [] {
      PopKeeps(calls, b);
      i, f := b.completed[0].0, b.completed[0].1;
      assert Came(calls, plan, b, cancelled, i, f);
      b' := b.(completed := b.completed[1..]);
    } else {
      i :| i in b.running;
      f := ExecuteAndFinalize(b.running[i], plan[i]);
      CompleteNowKeeps(calls, b, i, f);
      b' := b.(running := b.running - {i}, order := b.order + [i]);
      assert Runs(calls, plan, i);
    }
    SamePlanned(calls, plan, b, b', cancelled);
  }

  lemma SamePlanned(calls: seq<ToolCall>, plan: seq<Script>, b: Batch, b': Batch, cancelled: bool)
    requires Planned(calls, plan, b, cancelled)
    requires b'.finalized == b.finalized && b'.executed == b.executed && b'.running.Keys <= b.running.Keys
    requires b'.completed == b.completed || (b.completed != [] && b'.completed == b.completed[1..])
    ensures Planned(calls, plan, b', cancelled)
  {
    forall n | 0 <= n < |b'.completed| ensures Came(calls, plan, b', cancelled, b'.completed[n].0, b'.completed[n].1) {
      var k := if b'.completed == b.completed then n else n + 1;
      assert b'.completed[n] == b.completed[k];
      assert Came(calls, plan, b, cancelled, b.completed[k].0, b.completed[k].1);
    }
    forall i | 0 <= i < |b.finalized| && b.finalized[i].Some?
      ensures Came(calls, plan, b', cancelled, i, b.finalized[i].value)
    {
      assert Came(calls, plan, b, cancelled, i, b.finalized[i].value);
    }
  }

  /** The rest of the batch: completed calls end first come, first served, until nothing is left. */
  method DrainAll(calls: seq<ToolCall>, plan: seq<Script>, b: Batch, ghost cancelled: bool) returns (b': Batch)
    requires BatchInv(calls, b, {}, map[], []) && Planned(calls, plan, b, cancelled)
    ensures BatchInv(calls, b', {}, map[], []) && Planned(calls, plan, b', cancelled)
    ensures |b'.finalized| == |b.finalized| && forall i | 0 <= i < |b'.finalized| :: b'.finalized[i].Some?
    ensures b'.executed == b.executed && b'.order == OnlyIn(b'.ends, b'.executed)
    ensures CallStarts(b'.trace) == CallStarts(b.trace)
  {
    b' := b;
    while b'.completed != [] || b'.running.Keys != {}
      invariant BatchInv(calls, b', {}, map[], []) && Planned(calls, plan, b', cancelled)
      invariant |b'.finalized| == |b.finalized| && b'.executed == b.executed
      invariant CallStarts(b'.trace) == CallStarts(b.trace)
      decreases Pending(b')
    {
      var i, f;
      b', i, f := TakeCompleted(calls, plan, b', cancelled);
      b' := Deliver(b', i, f, calls, plan, cancelled);
    }
    assert Indices(b'.completed) == [];
  }

  /** The result messages, in source order; every slot is filled, so the `expect` of the source cannot fail. */
  method SettleResults(calls: seq<ToolCall>, b: Batch)
    returns (trace: seq<Event>, results: seq<ResultMessage>, terminate: bool)
    requires BatchInv(calls, b, {}, map[], []) && forall i | 0 <= i < |b.finalized| :: b.finalized[i].Some?
    ensures BatchSettled(calls, trace, results) && ResultsOfBatch(calls, b, results)
    ensures CallEnds(trace) == CallEnds(b.trace) && CallStarts(trace) == CallStarts(b.trace)
    ensures terminate <==> AllTerminate(results)
  {
    trace, results := b.trace, [];
    var finalized: seq<Finalized> := [];
    for i := 0 to |b.finalized|
      invariant BatchSettled(calls, trace, results) && |results| == |finalized| == i
      invariant forall k | 0 <= k < i ::
                  var f := b.finalized[k].value;
                  results[k] == ResultMessage(f.call.id, f.call.name, f.result, f.isError) && finalized[k] == f
      invariant CallEnds(trace) == CallEnds(b.trace) && CallStarts(trace) == CallStarts(b.trace)
    {
      var f := b.finalized[i].value;
      trace := EmitResult(trace, ResultOf(f));
      results := results + [ResultOf(f)];
      finalized := finalized + [f];
      assert ToolMessages(results) == ToolMessages(results[..i]) + [Tool(ResultOf(f))];
    }
    terminate := ShouldTerminate(finalized);
    SameTermination(finalized, results);
  }
}
