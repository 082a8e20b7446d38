/** Assistant message frames (`frames.rs`): the encoder of a live stream and the reducer that replays
    a committed frame sequence. */
module Frames {
  import opened JsonValues

  datatype Result<+T> = Ok(value: T) | Err(error: FrameError)

  datatype FrameError =
    | AfterTerminal | SecondStart | BeforeStart | NoContent | WrongContent
    | StartedTwice | NotStarted | WrongKind | AlreadyExists | Gap | AfterEnd | LateStart | Unreachable

  // ----- messages, events, frames -----

  datatype Kind = TextKind | ThinkingKind | CallKind

  datatype Call = Call(id: string, name: string, arguments: Json, thoughtSignature: Option<string>,
                       namespace: Option<string>, recorded: Option<Json>)

  datatype Content =
    | Text(text: string, textSignature: Option<string>)
    | Thinking(thinking: string, thinkingSignature: Option<string>, redacted: bool)
    | ToolCall(call: Call)
    | Image(data: string)

  datatype StopReason = Pending | Settled

  /** `identity` stands for api, provider, model, usage and the other fields that frames never change. */
  datatype Message = Message(identity: string, content: seq<Content>, stopReason: StopReason, error: Option<string>)

  datatype Ending = TextEnding(text: string) | ThinkingEnding(thinking: string) | CallEnding(call: Call)

  datatype Event =
    | Start(partial: Message)
    | BlockStart(kind: Kind, index: nat, partial: Message)
    | BlockDelta(kind: Kind, index: nat, delta: string)
    | BlockEnd(index: nat, ending: Ending, partial: Message)
    | Done
    | Failed

  /** `BlockStarted` never carries an image. */
  datatype Frame =
    | Started(partial: Message)
    | BlockStarted(index: nat, block: Content)
    | Delta(kind: Kind, index: nat, delta: string)
    | TextEnded(index: nat, text: string, textSignature: Option<string>)
    | ThinkingEnded(index: nat, thinking: string, thinkingSignature: Option<string>, redacted: Option<bool>)
    | Checkpoint(index: nat, json: string)
    | CallEnded(index: nat, call: Call)

  /** The streaming JSON parser and the serializer. */
  datatype Codec = Codec(parse: string -> Json, show: Json -> string) {
    /** Parsing what was serialized gives the value back. */
    ghost predicate Faithful() {
      forall x :: parse(show(x)) == x
    }
  }

  function KindOfContent(c: Content): Option<Kind> {
    match c
    case Text(_, _) => Some(TextKind)
    case Thinking(_, _, _) => Some(ThinkingKind)
    case ToolCall(_) => Some(CallKind)
    case Image(_) => None
  }

  function KindOfEnding(e: Ending): Kind {
    match e
    case TextEnding(_) => TextKind
    case ThinkingEnding(_) => ThinkingKind
    case CallEnding(_) => CallKind
  }

  /** The start frame carries identity only. */
  function CloneStartMessage(m: Message): Message {
    m.(content := [], stopReason := Pending, error := None)
  }

  /** Whether `a` can be extended into `b`. */
  predicate IsJsonPrefix(a: Json, b: Json)
    decreases a
  {
    match (a, b)
    case (Str(s), Str(t)) => s <= t
    case (Arr(xs), Arr(ys)) => |xs| <= |ys| && forall i | 0 <= i < |xs| :: IsJsonPrefix(xs[i], ys[i])
    case (Obj(m), Obj(n)) => forall k | k in m :: k in n && IsJsonPrefix(m[k], n[k])
    case _ => a.IsScalar() && b.IsScalar() && a == b
  }

  // ----- encoder -----

  datatype BlockState =
    | TextState(kind: Kind, covered: nat, seen: nat)
    | CallState(caughtUp: bool, catchup: string, snapshot: string)

  function KindOfState(s: BlockState): Kind {
    if s.TextState? then s.kind else CallKind
  }

  datatype Encoding = Encoding(started: bool, terminal: bool, blocks: map<nat, BlockState>)

  const NEW_ENCODING := Encoding(false, false, map[])

  function ContentAt(m: Message, index: nat, kind: Kind): Result<Content> {
    if index >= |m.content| then Err(NoContent)
    else if KindOfContent(m.content[index]) != Some(kind) then Err(WrongContent)
    else Ok(m.content[index])
  }

  function OpeningState(block: Content, codec: Codec): BlockState
    requires !block.Image?
  {
    match block
    case Text(text, _) => TextState(TextKind, |text|, 0)
    case Thinking(thinking, _, _) => TextState(ThinkingKind, |thinking|, 0)
    case ToolCall(call) =>
      var snapshot := codec.show(call.arguments);
      var caughtUp := snapshot == codec.show(codec.parse(""));
      CallState(caughtUp, "", if caughtUp then "" else snapshot)
  }

  /** The part of a delta that the start snapshot did not contain. */
  function Uncovered(covered: nat, seen: nat, delta: string): string {
    var skip := if covered > seen then covered - seen else 0;
    if skip >= |delta| then "" else delta[skip..]
  }

  /** The state after a tool-call delta, and the JSON it lets out as a delta or as a checkpoint. */
  function CallDelta(s: BlockState, index: nat, delta: string, codec: Codec): (r: (BlockState, Option<Frame>))
    requires s.CallState?
  {
    if s.caughtUp then (s, if delta == "" then None else Some(Delta(CallKind, index, delta)))
    else
      var json := s.catchup + delta;
      var arguments := codec.parse(json);
      if codec.show(arguments) != s.snapshot && !IsJsonPrefix(codec.parse(s.snapshot), arguments) then
        (s.(catchup := json), None)
      else
        (CallState(true, "", ""), if json == "" then None else Some(Checkpoint(index, json)))
  }

  function EndFrame(index: nat, ending: Ending, block: Content): Frame
    requires KindOfContent(block) == Some(KindOfEnding(ending))
  {
    match ending
    case TextEnding(text) => TextEnded(index, text, block.textSignature)
    case ThinkingEnding(thinking) => ThinkingEnded(index, thinking, block.thinkingSignature, Some(block.redacted))
    case CallEnding(call) => CallEnded(index, call)
  }

  /** One call of `encode`; an error leaves the encoder as it was. */
  function Encode(e: Encoding, event: Event, codec: Codec): (Encoding, Result<Option<Frame>>) {
    if e.terminal then (e, Err(AfterTerminal)) else
    match event
    case Start(partial) =>
      if e.started then (e, Err(SecondStart))
      else (e.(started := true), Ok(Some(Started(CloneStartMessage(partial)))))
    case Done => if !e.started then (e, Err(BeforeStart)) else (e.(terminal := true), Ok(None))
    case Failed => (e.(terminal := true), Ok(None))
    case BlockStart(kind, index, partial) =>
      if !e.started then (e, Err(BeforeStart)) else
      (match ContentAt(partial, index, kind)
       case Err(x) => (e, Err(x))
       case Ok(block) =>
         if index in e.blocks then (e, Err(StartedTwice))
         else (e.(blocks := e.blocks[index := OpeningState(block, codec)]), Ok(Some(BlockStarted(index, block)))))
    case BlockDelta(kind, index, delta) =>
      if !e.started then (e, Err(BeforeStart))
      else if index !in e.blocks then (e, Err(NotStarted))
      else if KindOfState(e.blocks[index]) != kind then (e, Err(WrongKind))
      else
        (match e.blocks[index]
         case TextState(_, covered, seen) =>
           var rest := Uncovered(covered, seen, delta);
           (e.(blocks := e.blocks[index := TextState(kind, covered, seen + |delta|)]),
            Ok(if rest == "" then None else Some(Delta(kind, index, rest))))
         case CallState(_, _, _) =>
           var (s, frame) := CallDelta(e.blocks[index], index, delta, codec);
           (e.(blocks := e.blocks[index := s]), Ok(frame)))
    case BlockEnd(index, ending, partial) =>
      if !e.started then (e, Err(BeforeStart)) else
      (match ContentAt(partial, index, KindOfEnding(ending))
       case Err(x) => (e, Err(x))
       case Ok(block) =>
         if index !in e.blocks then (e, Err(NotStarted))
         else if KindOfState(e.blocks[index]) != KindOfEnding(ending) then (e, Err(WrongKind))
         else (e.(blocks := e.blocks - {index}), Ok(Some(EndFrame(index, ending, block)))))
  }

  class Encoder {
    var started: bool
    var terminal: bool
    var blocks: map<nat, BlockState>

    ghost function Value(): Encoding
      reads this
    {
      Encoding(started, terminal, blocks)
    }

    constructor ()
      ensures Value() == NEW_ENCODING
    {
      started, terminal, blocks := false, false, map[];
    }

    method Next(event: Event, codec: Codec) returns (r: Result<Option<Frame>>)
      modifies this
      ensures (Value(), r) == Encode(old(Value()), event, codec)
    {
      if terminal {
        return Err(AfterTerminal);
      }
      match event
      case Start(partial) =>
        if started {
          return Err(SecondStart);
        }
        started := true;
        return Ok(Some(Started(CloneStartMessage(partial))));
      case Done =>
        if !started {
          return Err(BeforeStart);
        }
        terminal := true;
        return Ok(None);
      case Failed =>
        terminal := true;
        return Ok(None);
      case BlockStart(kind, index, partial) =>
        if !started {
          return Err(BeforeStart);
        }
        var block := ContentAt(partial, index, kind);
        if block.Err? {
          return Err(block.error);
        }
        if index in blocks {
          return Err(StartedTwice);
        }
        blocks := blocks[index := OpeningState(block.value, codec)];
        return Ok(Some(BlockStarted(index, block.value)));
      case BlockDelta(kind, index, delta) =>
        if !started {
          return Err(BeforeStart);
        }
        if index !in blocks {
          return Err(NotStarted);
        }
        var state := blocks[index];
        if KindOfState(state) != kind {
          return Err(WrongKind);
        }
        if state.TextState? {
          blocks := blocks[index := state.(seen := state.seen + |delta|)];
          var rest := Uncovered(state.covered, state.seen, delta);
          return Ok(if rest == "" then None else Some(Delta(kind, index, rest)));
        }
        if state.caughtUp {
          assert blocks[index := state] == blocks;
          return Ok(if delta == "" then None else Some(Delta(CallKind, index, delta)));
        }
        var json := state.catchup + delta;
        var arguments := codec.parse(json);
        if codec.show(arguments) != state.snapshot {
          var snapshot := codec.parse(state.snapshot);
          if !IsJsonPrefix(snapshot, arguments) {
            blocks := blocks[index := state.(catchup := json)];
            return Ok(None);
          }
        }
        blocks := blocks[index := CallState(true, "", "")];
        return Ok(if json == "" then None else Some(Checkpoint(index, json)));
      case BlockEnd(index, ending, partial) =>
        if !started {
          return Err(BeforeStart);
        }
        var block := ContentAt(partial, index, KindOfEnding(ending));
        if block.Err? {
          return Err(block.error);
        }
        if index !in blocks {
          return Err(NotStarted);
        }
        if KindOfState(blocks[index]) != KindOfEnding(ending) {
          return Err(WrongKind);
        }
        blocks := blocks - {index};
        return Ok(Some(EndFrame(index, ending, block.value)));
    }
  }

  // ----- reducer -----

  datatype ReplayState = ReplayState(kind: Kind, ended: bool, json: string)

  /** `orphan` is set by a frame before the start frame. */
  datatype Replay = Replay(message: Option<Message>, orphan: bool, states: map<nat, ReplayState>)

  const NEW_REPLAY := Replay(None, false, map[])

  /** The block a frame addresses, when it is open and of the expected kind. */
  function ActiveBlock(m: Message, states: map<nat, ReplayState>, index: nat, kind: Kind): Result<Content> {
    if index !in states then Err(NotStarted)
    else if states[index].kind != kind then Err(WrongKind)
    else if states[index].ended then Err(AfterEnd)
    else ContentAt(m, index, kind)
  }

  function SetBlock(r: Replay, index: nat, block: Content, state: ReplayState): Replay
    requires r.message.Some? && index < |r.message.value.content|
  {
    r.(message := Some(r.message.value.(content := r.message.value.content[index := block])),
       states := r.states[index := state])
  }

  function KindOfFrame(f: Frame): Kind {
    match f
    case Delta(kind, _, _) => kind
    case TextEnded(_, _, _) => TextKind
    case ThinkingEnded(_, _, _, _) => ThinkingKind
    case _ => CallKind
  }

  /** What a delta, checkpoint or end frame does to its open block. */
  function UpdateBlock(block: Content, state: ReplayState, f: Frame, codec: Codec): (Content, ReplayState)
    requires !f.Started? && !f.BlockStarted? && KindOfContent(block) == Some(KindOfFrame(f))
  {
    match f
    case Delta(kind, _, delta) =>
      (match kind
       case TextKind => (block.(text := block.text + delta), state)
       case ThinkingKind => (block.(thinking := block.thinking + delta), state)
       case CallKind => (block, state.(json := state.json + delta)))
    case TextEnded(_, text, signature) => (Text(text, signature), state.(ended := true))
    case ThinkingEnded(_, thinking, signature, redacted) =>
      (Thinking(thinking, signature, redacted == Some(true)), state.(ended := true))
    case Checkpoint(_, json) =>
      (ToolCall(block.call.(arguments := codec.parse(json))), state.(json := json))
    case CallEnded(_, call) => (ToolCall(call), state.(ended := true))
  }

  function ReplayStep(r: Replay, f: Frame, codec: Codec): Result<Replay> {
    if f.Started? then
      if r.message.Some? then Err(SecondStart)
      else if r.orphan then Err(LateStart)
      else Ok(r.(message := Some(CloneStartMessage(f.partial))))
    else if r.message.None? then Ok(r.(orphan := true))
    else
      var m := r.message.value;
      if f.BlockStarted? then
        if f.index < |m.content| then Err(AlreadyExists)
        else if f.index > |m.content| then Err(Gap)
        else
          (match KindOfContent(f.block)
           case None => Err(WrongContent)
           case Some(kind) =>
             Ok(r.(message := Some(m.(content := m.content + [f.block])),
                   states := r.states[f.index := ReplayState(kind, false, "")])))
      else
        (match ActiveBlock(m, r.states, f.index, KindOfFrame(f))
         case Err(x) => Err(x)
         case Ok(block) =>
           var (b, s) := UpdateBlock(block, r.states[f.index], f, codec);
           Ok(SetBlock(r, f.index, b, s)))
  }

  function ReplayAll(frames: seq<Frame>, codec: Codec): Result<Replay> {
    if frames == [] then Ok(NEW_REPLAY)
    else
      match ReplayAll(frames[..|frames| - 1], codec)
      case Err(x) => Err(x)
      case Ok(r) => ReplayStep(r, frames[|frames| - 1], codec)
  }

  /** Tool calls that never ended and have raw JSON. */
  predicate HasRawJson(s: ReplayState) {
    s.kind == CallKind && !s.ended && s.json != ""
  }

  /** The content with the raw JSON of open tool calls parsed. */
  function ParseRawJson(content: seq<Content>, states: map<nat, ReplayState>, codec: Codec): seq<Content> {
    seq(|content|, i requires 0 <= i < |content| =>
      if i in states && HasRawJson(states[i]) && content[i].ToolCall?
      then ToolCall(content[i].call.(arguments := codec.parse(states[i].json)))
      else content[i])
  }

  function Finish(r: Replay, codec: Codec): Result<Option<Message>> {
    if r.message.None? then Ok(None)
    else
      var m := r.message.value;
      if exists i | i in r.states :: HasRawJson(r.states[i]) && !(i < |m.content| && m.content[i].ToolCall?)
      then Err(Unreachable)
      else Ok(Some(m.(content := ParseRawJson(m.content, r.states, codec))))
  }

  function Reduce(frames: seq<Frame>, codec: Codec): Result<Option<Message>> {
    match ReplayAll(frames, codec)
    case Err(x) => Err(x)
    case Ok(r) => Finish(r, codec)
  }

  method ReduceFrames(frames: seq<Frame>, codec: Codec) returns (r: Result<Option<Message>>)
    ensures r == Reduce(frames, codec)
  {
    var message: Option<Message> := None;
    var orphan := false;
    var states: map<nat, ReplayState> := map[];
    assert frames[..|frames|] == frames;
    var n := 0;
    while n < |frames|
      invariant 0 <= n <= |frames|
      invariant ReplayAll(frames[..n], codec) == Ok(Replay(message, orphan, states))
    {
      var f := frames[n];
      assert frames[..n + 1][..n] == frames[..n];
      ReplayErrorStays(frames, n + 1, codec);
      n := n + 1;
      if f.Started? {
        if message.Some? {
          return Err(SecondStart);
        }
        if orphan {
          return Err(LateStart);
        }
        message := Some(CloneStartMessage(f.partial));
        continue;
      }
      if message.None? {
        orphan := true;
        continue;
      }
      var m := message.value;
      if f.BlockStarted? {
        if f.index != |m.content| {
          return Err(if f.index < |m.content| then AlreadyExists else Gap);
        }
        var kind := KindOfContent(f.block);
        if kind.None? {
          return Err(WrongContent);
        }
        message := Some(m.(content := m.content + [f.block]));
        states := states[f.index := ReplayState(kind.value, false, "")];
      } else {
        var block := ActiveBlock(m, states, f.index, KindOfFrame(f));
        if block.Err? {
          return Err(block.error);
        }
        var (b, s) := UpdateBlock(block.value, states[f.index], f, codec);
        message := Some(m.(content := m.content[f.index := b]));
        states := states[f.index := s];
      }
    }
    r := FinishCalls(message, orphan, states, codec);
  }

  /** An error in the middle of a sequence is the error of the whole. */
  lemma {:induction false} ReplayErrorStays(frames: seq<Frame>, n: nat, codec: Codec)
    requires n <= |frames|
    ensures ReplayAll(frames[..n], codec).Err? ==>
              ReplayAll(frames, codec) == Err(ReplayAll(frames[..n], codec).error)
    decreases |frames| - n
  {
    if n == |frames| {
      assert frames[..n] == frames;
    } else {
      assert frames[..n + 1][..n] == frames[..n];
      ReplayErrorStays(frames, n + 1, codec);
    }
  }

  method FinishCalls(message: Option<Message>, orphan: bool, states: map<nat, ReplayState>, codec: Codec)
    returns (r: Result<Option<Message>>)
    ensures r == Finish(Replay(message, orphan, states), codec)
  {
    if message.None? {
      return Ok(None);
    }
    var content := message.value.content;
    ghost var before := content;
    var todo := states.Keys;
    while todo != {}
      invariant todo <= states.Keys && |content| == |before|
      invariant forall i | i in states && i !in todo && HasRawJson(states[i]) :: i < |before| && before[i].ToolCall?
      invariant forall i | 0 <= i < |content| && (i !in states || i in todo) :: content[i] == before[i]
      invariant forall i | 0 <= i < |content| && i in states && i !in todo ::
                  content[i] == ParseRawJson(before, states, codec)[i]
      decreases todo
    {
      var i :| i in todo;
      todo := todo - {i};
      if HasRawJson(states[i]) {
        if i < |content| && content[i].ToolCall? {
          content := content[i := ToolCall(content[i].call.(arguments := codec.parse(states[i].json)))];
        } else {
          return Err(Unreachable);
        }
      }
    }
    assert content == ParseRawJson(before, states, codec);
    return Ok(Some(message.value.(content := content)));
  }
}
