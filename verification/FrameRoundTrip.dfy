/** Replaying the frames of a stream gives back the blocks of the stream, at every point of it. */
module FrameRoundTrip {
  import opened JsonValues
  import opened Frames
  import opened JsonExtension

  // ----- what a stream means, without encoder or reducer -----

  /** One block of a stream: its start snapshot, the deltas so far, and its end payload once it has ended. */
  datatype Block = Block(snapshot: Content, deltas: seq<string>, ending: Option<Content>)

  datatype View = View(start: Option<Message>, terminal: bool, blocks: seq<Block>)

  function Concat(chunks: seq<string>): string {
    if chunks == [] then "" else Concat(chunks[..|chunks| - 1]) + chunks[|chunks| - 1]
  }

  function SnapshotText(c: Content): string
    requires c.Text? || c.Thinking?
  {
    if c.Text? then c.text else c.thinking
  }

  /** Whether the raw JSON of the deltas has reached what the start snapshot already showed. */
  predicate CaughtUp(arguments: Json, chunks: seq<string>, codec: Codec) {
    if chunks == [] then arguments == codec.parse("")
    else
      || CaughtUp(arguments, chunks[..|chunks| - 1], codec)
      || IsJsonPrefix(arguments, codec.parse(Concat(chunks)))
  }

  /** The content a block should replay to. */
  function Content(b: Block, codec: Codec): Content {
    if b.ending.Some? then b.ending.value else
    var d := Concat(b.deltas);
    match b.snapshot
    case Text(text, signature) => Text(text + Beyond(d, |text|), signature)
    case Thinking(thinking, signature, redacted) => Thinking(thinking + Beyond(d, |thinking|), signature, redacted)
    case ToolCall(call) =>
      if CaughtUp(call.arguments, b.deltas, codec) && d != "" then ToolCall(call.(arguments := codec.parse(d)))
      else b.snapshot
    case Image(_) => b.snapshot
  }

  function Beyond(s: string, n: nat): string {
    if n < |s| then s[n..] else ""
  }

  /** The end payload of a block: the event's text or call with the signature the message holds by then. */
  function EndContent(ending: Ending, current: Content): Content
    requires KindOfContent(current) == Some(KindOfEnding(ending))
  {
    match ending
    case TextEnding(text) => Text(text, current.textSignature)
    case ThinkingEnding(thinking) => Thinking(thinking, current.thinkingSignature, current.redacted)
    case CallEnding(call) => ToolCall(call)
  }

  /** One event of the stream contract: blocks start at 0, 1, 2, ..., may be interleaved, and end once;
      an event that breaks the contract gives `None`. */
  function Observe(v: View, event: Event): Option<View> {
    if v.terminal then None else
    match event
    case Start(partial) => if v.start.Some? then None else Some(v.(start := Some(partial)))
    case Done => if v.start.None? then None else Some(v.(terminal := true))
    case Failed => Some(v.(terminal := true))
    case BlockStart(kind, index, partial) =>
      if v.start.None? || index != |v.blocks| || ContentAt(partial, index, kind).Err? then None
      else Some(v.(blocks := v.blocks + [Block(partial.content[index], [], None)]))
    case BlockDelta(kind, index, delta) =>
      if v.start.None? || !IsOpen(v, index, kind) then None
      else Some(v.(blocks := v.blocks[index := v.blocks[index].(deltas := v.blocks[index].deltas + [delta])]))
    case BlockEnd(index, ending, partial) =>
      var kind := KindOfEnding(ending);
      if v.start.None? || !IsOpen(v, index, kind) || ContentAt(partial, index, kind).Err? then None
      else Some(v.(blocks := v.blocks[index :=
             v.blocks[index].(ending := Some(EndContent(ending, partial.content[index])))]))
  }

  predicate IsOpen(v: View, index: nat, kind: Kind) {
    index < |v.blocks| && v.blocks[index].ending.None? && KindOfContent(v.blocks[index].snapshot) == Some(kind)
  }

  /** The meaning of a whole stream; `None` when it breaks the contract. */
  function ViewOf(events: seq<Event>): Option<View> {
    if events == [] then Some(View(None, false, []))
    else
      match ViewOf(events[..|events| - 1])
      case None => None
      case Some(v) => Observe(v, events[|events| - 1])
  }

  // ----- `is_json_prefix` is a partial order -----

  lemma {:induction false} JsonPrefixReflexive(a: Json)
    ensures IsJsonPrefix(a, a)
    decreases a
  {
    match a
    case Arr(xs) =>
      forall i | 0 <= i < |xs| ensures IsJsonPrefix(xs[i], xs[i]) { JsonPrefixReflexive(xs[i]); }
    case Obj(m) =>
      forall k | k in m ensures IsJsonPrefix(m[k], m[k]) { JsonPrefixReflexive(m[k]); }
    case _ =>
  }

  lemma {:induction false} JsonPrefixTransitive(a: Json, b: Json, c: Json)
    requires IsJsonPrefix(a, b) && IsJsonPrefix(b, c)
    ensures IsJsonPrefix(a, c)
    decreases a
  {
    match a
    case Arr(xs) =>
      forall i | 0 <= i < |xs| ensures IsJsonPrefix(xs[i], c.items[i]) {
        JsonPrefixTransitive(xs[i], b.items[i], c.items[i]);
      }
    case Obj(m) =>
      forall k | k in m ensures k in c.fields && IsJsonPrefix(m[k], c.fields[k]) {
        JsonPrefixTransitive(m[k], b.fields[k], c.fields[k]);
      }
    case _ =>
  }

  lemma {:induction false} JsonPrefixAntisymmetric(a: Json, b: Json)
    requires IsJsonPrefix(a, b) && IsJsonPrefix(b, a)
    ensures a == b
    decreases a
  {
    match a
    case Arr(xs) =>
      forall i | 0 <= i < |xs| ensures xs[i] == b.items[i] { JsonPrefixAntisymmetric(xs[i], b.items[i]); }
    case Obj(m) =>
      forall k | k in m ensures k in b.fields && m[k] == b.fields[k] {
        JsonPrefixAntisymmetric(m[k], b.fields[k]);
      }
      assert m.Keys == b.fields.Keys;
    case _ =>
  }

  // ----- the pipeline: encode every event, replay every frame -----

  /** The encoder after a stream, and the frames it let out. */
  function EncodeAll(events: seq<Event>, codec: Codec): Result<(Encoding, seq<Frame>)> {
    if events == [] then Ok((NEW_ENCODING, []))
    else
      match EncodeAll(events[..|events| - 1], codec)
      case Err(x) => Err(x)
      case Ok((e, frames)) =>
        var (e', r) := Encode(e, events[|events| - 1], codec);
        (match r
         case Err(x) => Err(x)
         case Ok(None) => Ok((e', frames))
         case Ok(Some(f)) => Ok((e', frames + [f])))
  }

  /** One event through the encoder and, if a frame comes out, through the reducer. */
  function Feed(e: Encoding, r: Replay, event: Event, codec: Codec): Result<(Encoding, Replay)> {
    var (e', out) := Encode(e, event, codec);
    match out
    case Err(x) => Err(x)
    case Ok(None) => Ok((e', r))
    case Ok(Some(f)) =>
      match ReplayStep(r, f, codec)
      case Err(x) => Err(x)
      case Ok(r') => Ok((e', r'))
  }

  // ----- the simulation -----

  /** The encoder's bookkeeping for an open block. */
  ghost predicate EncodesBlock(s: BlockState, b: Block, codec: Codec) {
    match b.snapshot
    case Text(text, _) => s == TextState(TextKind, |text|, |Concat(b.deltas)|)
    case Thinking(thinking, _, _) => s == TextState(ThinkingKind, |thinking|, |Concat(b.deltas)|)
    case ToolCall(call) =>
      && s.CallState?
      && s.caughtUp == CaughtUp(call.arguments, b.deltas, codec)
      && (!s.caughtUp ==> s.catchup == Concat(b.deltas) && s.snapshot == codec.show(call.arguments))
    case Image(_) => false
  }

  /** The reducer's raw buffer: the whole delta text once the encoder has caught up, empty before. */
  function RawJson(b: Block, codec: Codec): string
    requires b.snapshot.ToolCall?
  {
    if CaughtUp(b.snapshot.call.arguments, b.deltas, codec) then Concat(b.deltas) else ""
  }

  ghost predicate ReplaysBlock(s: ReplayState, c: Content, b: Block, codec: Codec) {
    && KindOfContent(b.snapshot) == Some(s.kind)
    && KindOfContent(c) == Some(s.kind)
    && s.ended == b.ending.Some?
    && (s.ended ==> c == b.ending.value)
    && (!s.ended && !b.snapshot.ToolCall? ==> c == Content(b, codec))
    && (!s.ended && b.snapshot.ToolCall? ==>
          && s.json == RawJson(b, codec)
          && c.call == b.snapshot.call.(arguments := c.call.arguments)
          && (s.json == "" ==> c == b.snapshot))
  }

  ghost predicate EncoderFollows(v: View, e: Encoding, codec: Codec) {
    && e.started == v.start.Some?
    && e.terminal == v.terminal
    && (v.start.None? ==> v.blocks == [])
    && (forall i: nat :: i in e.blocks <==> i < |v.blocks| && v.blocks[i].ending.None?)
    && (forall i | i in e.blocks :: EncodesBlock(e.blocks[i], v.blocks[i], codec))
  }

  ghost predicate ReducerFollows(v: View, r: Replay, codec: Codec) {
    && !r.orphan
    && r.message.Some? == v.start.Some?
    && (forall i: nat :: i in r.states <==> i < |v.blocks|)
    && (r.message.Some? ==>
          && r.message.value == CloneStartMessage(v.start.value).(content := r.message.value.content)
          && |r.message.value.content| == |v.blocks|
          && forall i | 0 <= i < |v.blocks| ::
               ReplaysBlock(r.states[i], r.message.value.content[i], v.blocks[i], codec))
  }

  ghost predicate Simulates(v: View, e: Encoding, r: Replay, codec: Codec) {
    EncoderFollows(v, e, codec) && ReducerFollows(v, r, codec)
  }

  lemma ConcatAppend(chunks: seq<string>, d: string)
    ensures Concat(chunks + [d]) == Concat(chunks) + d
  {
    assert (chunks + [d])[..|chunks|] == chunks;
  }

  /** The uncovered part of a delta is exactly what it adds beyond the snapshot. */
  lemma UncoveredIsBeyond(d: string, delta: string, covered: nat)
    ensures Beyond(d, covered) + Uncovered(covered, |d|, delta) == Beyond(d + delta, covered)
  {
  }

  /** Steps that touch only block `i`. */
  lemma ReducerStep(v: View, r: Replay, i: nat, b: Block, c: Content, rs: ReplayState, codec: Codec)
    requires ReducerFollows(v, r, codec) && i < |v.blocks| && v.start.Some? && ReplaysBlock(rs, c, b, codec)
    ensures ReducerFollows(v.(blocks := v.blocks[i := b]), SetBlock(r, i, c, rs), codec)
  {
  }

  lemma EncoderStep(v: View, e: Encoding, i: nat, b: Block, s: BlockState, codec: Codec)
    requires EncoderFollows(v, e, codec) && i in e.blocks && b.ending.None? && EncodesBlock(s, b, codec)
    ensures EncoderFollows(v.(blocks := v.blocks[i := b]), e.(blocks := e.blocks[i := s]), codec)
  {
  }

  lemma EncoderEnd(v: View, e: Encoding, i: nat, b: Block, codec: Codec)
    requires EncoderFollows(v, e, codec) && i in e.blocks && b.ending.Some?
    ensures EncoderFollows(v.(blocks := v.blocks[i := b]), e.(blocks := e.blocks - {i}), codec)
  {
  }

  /** What a text or thinking block shows after one more delta is what it showed plus the uncovered part. */
  lemma ShownGrows(b: Block, kind: Kind, delta: string, codec: Codec)
    requires b.ending.None? && KindOfContent(b.snapshot) == Some(kind) && kind != CallKind
    ensures var b' := b.(deltas := b.deltas + [delta]);
            var rest := Uncovered(|SnapshotText(b.snapshot)|, |Concat(b.deltas)|, delta);
            && Concat(b'.deltas) == Concat(b.deltas) + delta
            && Content(b', codec) == if kind == TextKind
                                     then Content(b, codec).(text := Content(b, codec).text + rest)
                                     else Content(b, codec).(thinking := Content(b, codec).thinking + rest)
  {
    var text, d := SnapshotText(b.snapshot), Concat(b.deltas);
    ConcatAppend(b.deltas, delta);
    UncoveredIsBeyond(d, delta, |text|);
    var rest := Uncovered(|text|, |d|, delta);
    assert text + Beyond(d + delta, |text|) == (text + Beyond(d, |text|)) + rest;
  }

  lemma TextDeltaBlock(b: Block, s: BlockState, c: Content, rs: ReplayState, kind: Kind, i: nat, delta: string,
                       codec: Codec)
    requires EncodesBlock(s, b, codec) && ReplaysBlock(rs, c, b, codec) && b.ending.None?
    requires KindOfContent(b.snapshot) == Some(kind) && kind != CallKind
    ensures var b' := b.(deltas := b.deltas + [delta]);
            var (c', rs') := UpdateBlock(c, rs, Delta(kind, i, Uncovered(s.covered, s.seen, delta)), codec);
            && EncodesBlock(TextState(kind, s.covered, s.seen + |delta|), b', codec)
            && ReplaysBlock(rs', c', b', codec)
  {
    ShownGrows(b, kind, delta, codec);
  }

  /** What the simulation says about one open block. */
  lemma OpenBlock(v: View, e: Encoding, r: Replay, kind: Kind, i: nat, codec: Codec)
    requires Simulates(v, e, r, codec) && v.start.Some? && !v.terminal && IsOpen(v, i, kind)
    ensures e.started && !e.terminal && i in e.blocks && EncodesBlock(e.blocks[i], v.blocks[i], codec)
    ensures KindOfState(e.blocks[i]) == kind
    ensures r.message.Some? && i < |r.message.value.content| && i in r.states
    ensures ReplaysBlock(r.states[i], r.message.value.content[i], v.blocks[i], codec)
    ensures ActiveBlock(r.message.value, r.states, i, kind) == Ok(r.message.value.content[i])
  {
  }

  /** A frame for an open block replays as an update of that block. */
  lemma ReplayUpdate(r: Replay, f: Frame, codec: Codec)
    requires r.message.Some? && !f.Started? && !f.BlockStarted?
    requires ActiveBlock(r.message.value, r.states, f.index, KindOfFrame(f)).Ok?
    ensures var (c, s) := UpdateBlock(r.message.value.content[f.index], r.states[f.index], f, codec);
            ReplayStep(r, f, codec) == Ok(SetBlock(r, f.index, c, s))
  {
  }

  lemma FeedTextDelta(e: Encoding, r: Replay, i: nat, delta: string, codec: Codec)
    requires e.started && !e.terminal && i in e.blocks && e.blocks[i].TextState? && e.blocks[i].kind != CallKind
    requires r.message.Some? && ActiveBlock(r.message.value, r.states, i, e.blocks[i].kind).Ok?
    ensures var s := e.blocks[i];
            var rest := Uncovered(s.covered, s.seen, delta);
            var (c', rs') := UpdateBlock(r.message.value.content[i], r.states[i], Delta(s.kind, i, rest), codec);
            Feed(e, r, BlockDelta(s.kind, i, delta), codec)
            == Ok((e.(blocks := e.blocks[i := s.(seen := s.seen + |delta|)]),
                   SetBlock(r, i, c', rs')))
  {
    var s := e.blocks[i];
    var c := r.message.value.content[i];
    assert c.Text? ==> c.text + "" == c.text;
    assert c.Thinking? ==> c.thinking + "" == c.thinking;
    if Uncovered(s.covered, s.seen, delta) == "" {
      assert UpdateBlock(c, r.states[i], Delta(s.kind, i, ""), codec) == (c, r.states[i]);
      SetBlockSame(r, i);
    }
    ReplayUpdate(r, Delta(s.kind, i, Uncovered(s.covered, s.seen, delta)), codec);
  }

  lemma TextDeltaParts(v: View, e: Encoding, r: Replay, kind: Kind, i: nat, delta: string, codec: Codec)
    requires Simulates(v, e, r, codec) && v.start.Some? && IsOpen(v, i, kind) && kind != CallKind && !v.terminal
    ensures i in e.blocks && e.blocks[i].TextState? && r.message.Some? && i in r.states
    ensures ActiveBlock(r.message.value, r.states, i, kind).Ok?
    ensures var s := e.blocks[i];
            var b' := v.blocks[i].(deltas := v.blocks[i].deltas + [delta]);
            var frame := Delta(kind, i, Uncovered(s.covered, s.seen, delta));
            var (c', rs') := UpdateBlock(r.message.value.content[i], r.states[i], frame, codec);
            && EncoderFollows(v.(blocks := v.blocks[i := b']),
                              e.(blocks := e.blocks[i := s.(seen := s.seen + |delta|)]), codec)
            && ReducerFollows(v.(blocks := v.blocks[i := b']), SetBlock(r, i, c', rs'), codec)
  {
    OpenBlock(v, e, r, kind, i, codec);
    var b, s, c, rs := v.blocks[i], e.blocks[i], r.message.value.content[i], r.states[i];
    TextDeltaBlock(b, s, c, rs, kind, i, delta, codec);
    var b' := b.(deltas := b.deltas + [delta]);
    var (c', rs') := UpdateBlock(c, rs, Delta(kind, i, Uncovered(s.covered, s.seen, delta)), codec);
    EncoderStep(v, e, i, b', s.(seen := s.seen + |delta|), codec);
    ReducerStep(v, r, i, b', c', rs', codec);
  }

  lemma TextDeltaSimulates(v: View, e: Encoding, r: Replay, kind: Kind, i: nat, delta: string, codec: Codec)
    requires Simulates(v, e, r, codec) && v.start.Some? && IsOpen(v, i, kind) && kind != CallKind && !v.terminal
    ensures var b' := v.blocks[i].(deltas := v.blocks[i].deltas + [delta]);
            var f := Feed(e, r, BlockDelta(kind, i, delta), codec);
            f.Ok? && Simulates(v.(blocks := v.blocks[i := b']), f.value.0, f.value.1, codec)
  {
    OpenBlock(v, e, r, kind, i, codec);
    TextDeltaParts(v, e, r, kind, i, delta, codec);
    FeedTextDelta(e, r, i, delta, codec);
  }

  lemma SetBlockSame(r: Replay, i: nat)
    requires r.message.Some? && i < |r.message.value.content| && i in r.states
    ensures SetBlock(r, i, r.message.value.content[i], r.states[i]) == r
  {
    var content := r.message.value.content;
    assert content[i := content[i]] == content;
    assert r.states[i := r.states[i]] == r.states;
  }

  /** The block after a tool-call delta; without a frame the reducer's side stays as it was. */
  lemma CallDeltaBlock(b: Block, s: BlockState, c: Content, rs: ReplayState, i: nat, delta: string, codec: Codec)
    requires codec.Faithful()
    requires EncodesBlock(s, b, codec) && ReplaysBlock(rs, c, b, codec) && b.ending.None? && b.snapshot.ToolCall?
    ensures var b' := b.(deltas := b.deltas + [delta]);
            var (s', frame) := CallDelta(s, i, delta, codec);
            && EncodesBlock(s', b', codec)
            && (frame.None? ==> ReplaysBlock(rs, c, b', codec))
            && (frame.Some? ==>
                  && (frame.value.Delta? || frame.value.Checkpoint?)
                  && frame.value.index == i && KindOfFrame(frame.value) == CallKind
                  && var (c', rs') := UpdateBlock(c, rs, frame.value, codec);
                     ReplaysBlock(rs', c', b', codec))
  {
    var b' := b.(deltas := b.deltas + [delta]);
    var snapshot := b.snapshot.call.arguments;
    ConcatAppend(b.deltas, delta);
    assert b'.deltas[..|b'.deltas| - 1] == b.deltas;
    var (s', frame) := CallDelta(s, i, delta, codec);
    if !s.caughtUp {
      assert codec.parse(s.snapshot) == snapshot;
      JsonPrefixReflexive(snapshot);
      var arguments := codec.parse(Concat(b'.deltas));
      assert codec.parse(codec.show(arguments)) == arguments;
    }
    assert s'.caughtUp == CaughtUp(snapshot, b'.deltas, codec);
  }

  lemma CallDeltaSimulates(v: View, e: Encoding, r: Replay, i: nat, delta: string, codec: Codec)
    requires codec.Faithful()
    requires Simulates(v, e, r, codec) && v.start.Some? && IsOpen(v, i, CallKind) && !v.terminal
    ensures var b' := v.blocks[i].(deltas := v.blocks[i].deltas + [delta]);
            var f := Feed(e, r, BlockDelta(CallKind, i, delta), codec);
            f.Ok? && Simulates(v.(blocks := v.blocks[i := b']), f.value.0, f.value.1, codec)
  {
    OpenBlock(v, e, r, CallKind, i, codec);
    var b, s, c, rs := v.blocks[i], e.blocks[i], r.message.value.content[i], r.states[i];
    CallDeltaBlock(b, s, c, rs, i, delta, codec);
    var b' := b.(deltas := b.deltas + [delta]);
    var (s', frame) := CallDelta(s, i, delta, codec);
    EncoderStep(v, e, i, b', s', codec);
    if frame.None? {
      ReducerStep(v, r, i, b', c, rs, codec);
      SetBlockSame(r, i);
    } else {
      var (c', rs') := UpdateBlock(c, rs, frame.value, codec);
      ReplayUpdate(r, frame.value, codec);
      ReducerStep(v, r, i, b', c', rs', codec);
    }
  }

  lemma EndBlock(b: Block, c: Content, rs: ReplayState, i: nat, ending: Ending, block: Content, codec: Codec)
    requires ReplaysBlock(rs, c, b, codec) && b.ending.None?
    requires KindOfContent(b.snapshot) == KindOfContent(block) == Some(KindOfEnding(ending))
    ensures var f := EndFrame(i, ending, block);
            && KindOfContent(c) == Some(KindOfFrame(f))
            && var (c', rs') := UpdateBlock(c, rs, f, codec);
               ReplaysBlock(rs', c', b.(ending := Some(EndContent(ending, block))), codec)
  {
  }

  lemma FeedEnd(e: Encoding, r: Replay, event: Event, codec: Codec)
    requires event.BlockEnd? && e.started && !e.terminal && event.index in e.blocks
    requires KindOfState(e.blocks[event.index]) == KindOfEnding(event.ending)
    requires ContentAt(event.partial, event.index, KindOfEnding(event.ending)).Ok?
    requires r.message.Some?
    requires ActiveBlock(r.message.value, r.states, event.index, KindOfEnding(event.ending)).Ok?
    ensures var i := event.index;
            var frame := EndFrame(i, event.ending, event.partial.content[i]);
            var (c', rs') := UpdateBlock(r.message.value.content[i], r.states[i], frame, codec);
            Feed(e, r, event, codec) == Ok((e.(blocks := e.blocks - {i}), SetBlock(r, i, c', rs')))
  {
    ReplayUpdate(r, EndFrame(event.index, event.ending, event.partial.content[event.index]), codec);
  }

  lemma EndSimulates(v: View, e: Encoding, r: Replay, event: Event, codec: Codec)
    requires Simulates(v, e, r, codec) && event.BlockEnd? && Observe(v, event).Some?
    ensures var f := Feed(e, r, event, codec);
            f.Ok? && Simulates(Observe(v, event).value, f.value.0, f.value.1, codec)
  {
    var i := event.index;
    OpenBlock(v, e, r, KindOfEnding(event.ending), i, codec);
    var b, c, rs := v.blocks[i], r.message.value.content[i], r.states[i];
    var block := event.partial.content[i];
    EndBlock(b, c, rs, i, event.ending, block, codec);
    var frame := EndFrame(i, event.ending, block);
    var (c', rs') := UpdateBlock(c, rs, frame, codec);
    FeedEnd(e, r, event, codec);
    var b' := b.(ending := Some(EndContent(event.ending, block)));
    EncoderEnd(v, e, i, b', codec);
    ReducerStep(v, r, i, b', c', rs', codec);
  }

  /** A block that has just started. */
  lemma OpeningSimulates(block: Content, kind: Kind, codec: Codec)
    requires codec.Faithful() && KindOfContent(block) == Some(kind)
    ensures EncodesBlock(OpeningState(block, codec), Block(block, [], None), codec)
    ensures ReplaysBlock(ReplayState(kind, false, ""), block, Block(block, [], None), codec)
  {
    var deltas: seq<string> := [];
    assert Concat(deltas) == "";
    if block.ToolCall? {
      var empty := codec.parse("");
      assert codec.parse(codec.show(empty)) == empty;
      assert codec.parse(codec.show(block.call.arguments)) == block.call.arguments;
    }
  }

  lemma StartSimulates(v: View, e: Encoding, r: Replay, event: Event, codec: Codec)
    requires codec.Faithful()
    requires Simulates(v, e, r, codec) && event.BlockStart? && Observe(v, event).Some?
    ensures var f := Feed(e, r, event, codec);
            f.Ok? && Simulates(Observe(v, event).value, f.value.0, f.value.1, codec)
  {
    OpeningSimulates(event.partial.content[event.index], event.kind, codec);
  }

  lemma FeedSimulates(v: View, e: Encoding, r: Replay, event: Event, codec: Codec)
    requires codec.Faithful() && Simulates(v, e, r, codec)
    ensures var f := Feed(e, r, event, codec);
            && (f.Ok? <==> Observe(v, event).Some?)
            && (f.Ok? ==> Simulates(Observe(v, event).value, f.value.0, f.value.1, codec))
  {
    if Observe(v, event).Some? {
      match event
      case BlockStart(_, _, _) => StartSimulates(v, e, r, event, codec);
      case BlockDelta(kind, i, delta) =>
        if kind == CallKind {
          CallDeltaSimulates(v, e, r, i, delta, codec);
        } else {
          TextDeltaSimulates(v, e, r, kind, i, delta, codec);
        }
      case BlockEnd(_, _, _) => EndSimulates(v, e, r, event, codec);
      case _ =>
    } else {
      FeedRejects(v, e, r, event, codec);
    }
  }

  /** What the contract forbids, the encoder or the reducer refuses. */
  lemma FeedRejects(v: View, e: Encoding, r: Replay, event: Event, codec: Codec)
    requires Simulates(v, e, r, codec) && Observe(v, event).None?
    ensures Feed(e, r, event, codec).Err?
  {
    if event.BlockDelta? || event.BlockEnd? {
      if event.index in e.blocks {
        assert EncodesBlock(e.blocks[event.index], v.blocks[event.index], codec);
      }
    }
  }

  // ----- the theorems -----

  lemma {:induction false} PipelineFollows(events: seq<Event>, codec: Codec)
    requires codec.Faithful()
    ensures match ViewOf(events)
            case None => EncodeAll(events, codec).Err? || ReplayAll(EncodeAll(events, codec).value.1, codec).Err?
            case Some(v) =>
              && EncodeAll(events, codec).Ok?
              && var (e, frames) := EncodeAll(events, codec).value;
                 ReplayAll(frames, codec).Ok? && Simulates(v, e, ReplayAll(frames, codec).value, codec)
  {
    if events != [] {
      var before := events[..|events| - 1];
      var event := events[|events| - 1];
      PipelineFollows(before, codec);
      if EncodeAll(before, codec).Ok? {
        var (e, frames) := EncodeAll(before, codec).value;
        var (e', out) := Encode(e, event, codec);
        if out.Ok? && out.value.Some? {
          assert (frames + [out.value.value])[..|frames|] == frames;
        }
        if ViewOf(before).Some? {
          FeedSimulates(ViewOf(before).value, e, ReplayAll(frames, codec).value, event, codec);
        }
      }
    }
  }

  lemma FinishedBlock(s: ReplayState, c: Content, b: Block, codec: Codec)
    requires ReplaysBlock(s, c, b, codec)
    ensures Content(b, codec)
         == if HasRawJson(s) && c.ToolCall? then ToolCall(c.call.(arguments := codec.parse(s.json))) else c
  {
    if b.snapshot.ToolCall? && b.ending.None? {
      var arguments := codec.parse(s.json);
      assert c.call.(arguments := arguments) == b.snapshot.call.(arguments := arguments);
    }
  }

  lemma FinishReplays(v: View, e: Encoding, r: Replay, codec: Codec)
    requires Simulates(v, e, r, codec)
    ensures Finish(r, codec) == Ok(Replayed(v, codec))
  {
    if v.start.Some? {
      var content := r.message.value.content;
      forall i | 0 <= i < |content|
        ensures ParseRawJson(content, r.states, codec)[i] == Content(v.blocks[i], codec)
      {
        FinishedBlock(r.states[i], content[i], v.blocks[i], codec);
      }
      assert ParseRawJson(content, r.states, codec) == Replayed(v, codec).value.content;
    }
  }

  /** The message a stream should replay to: every block in index order. */
  function Replayed(v: View, codec: Codec): Option<Message> {
    if v.start.None? then None
    else Some(CloneStartMessage(v.start.value).(
                content := seq(|v.blocks|, i requires 0 <= i < |v.blocks| => Content(v.blocks[i], codec))))
  }

  /** The fields a replay starts with, and how many blocks it has. */
  lemma ReplayedMessage(v: View, codec: Codec)
    ensures v.start.None? <==> Replayed(v, codec).None?
    ensures v.start.Some? ==>
              var m := Replayed(v, codec).value;
              && m.identity == v.start.value.identity && m.stopReason == Pending && m.error == None
              && |m.content| == |v.blocks|
              && forall i | 0 <= i < |v.blocks| :: m.content[i] == Content(v.blocks[i], codec)
  {
  }

  /** For every event sequence, interleaved and cut anywhere: it keeps the stream contract if and only if
      both encoder and reducer accept it, and then the committed frames replay to its blocks. */
  lemma RoundTrip(events: seq<Event>, codec: Codec)
    requires codec.Faithful()
    ensures ViewOf(events).Some?
       <==> EncodeAll(events, codec).Ok? && Reduce(EncodeAll(events, codec).value.1, codec).Ok?
    ensures ViewOf(events).Some? ==>
              Reduce(EncodeAll(events, codec).value.1, codec) == Ok(Replayed(ViewOf(events).value, codec))
  {
    PipelineFollows(events, codec);
    if ViewOf(events).Some? {
      var (e, frames) := EncodeAll(events, codec).value;
      FinishReplays(ViewOf(events).value, e, ReplayAll(frames, codec).value, codec);
    }
  }

  /** An open block replays to the longer of its snapshot and its deltas, so no character is lost or doubled. */
  lemma OpenTextIsLonger(b: Block, codec: Codec)
    requires b.ending.None? && (b.snapshot.Text? || b.snapshot.Thinking?)
    requires var s, d := SnapshotText(b.snapshot), Concat(b.deltas); s <= d || d <= s
    ensures var s, d := SnapshotText(b.snapshot), Concat(b.deltas);
            KindOfContent(Content(b, codec)) == KindOfContent(b.snapshot) &&
            SnapshotText(Content(b, codec)) == if |s| <= |d| then d else s
  {
    var s, d := SnapshotText(b.snapshot), Concat(b.deltas);
    if |s| <= |d| {
      assert s + d[|s|..] == d;
    }
  }

  /** The encoder trusts the raw JSON only after some prefix of it extended the start snapshot. */
  lemma {:induction false} CaughtUpAtSomeDelta(arguments: Json, chunks: seq<string>, codec: Codec)
    requires CaughtUp(arguments, chunks, codec)
    ensures arguments == codec.parse("") ||
            exists n | 0 < n <= |chunks| :: IsJsonPrefix(arguments, codec.parse(Concat(chunks[..n])))
  {
    if chunks != [] {
      var n := |chunks|;
      assert chunks[..n] == chunks;
      if CaughtUp(arguments, chunks[..n - 1], codec) {
        CaughtUpAtSomeDelta(arguments, chunks[..n - 1], codec);
        if arguments != codec.parse("") {
          var k :| 0 < k <= n - 1 && IsJsonPrefix(arguments, codec.parse(Concat(chunks[..n - 1][..k])));
          assert chunks[..n - 1][..k] == chunks[..k];
        }
      }
    }
  }

  /** At some delta everything in the start snapshot was there in the raw JSON, perhaps longer. */
  ghost predicate Reached(arguments: Json, chunks: seq<string>, codec: Codec) {
    exists n | 0 < n <= |chunks| :: Extends(arguments, codec.parse(Concat(chunks[..n])))
  }

  /** That is when the encoder trusts the raw JSON; at once, if the snapshot is what an empty text parses to. */
  lemma {:induction false} CaughtUpIff(arguments: Json, chunks: seq<string>, codec: Codec)
    ensures CaughtUp(arguments, chunks, codec) <==> arguments == codec.parse("") || Reached(arguments, chunks, codec)
  {
    if chunks != [] {
      var n := |chunks|;
      var before := chunks[..n - 1];
      CaughtUpIff(arguments, before, codec);
      PrefixIff(arguments, codec.parse(Concat(chunks)));
      assert chunks[..n] == chunks;
      assert forall k | 0 < k <= n - 1 :: before[..k] == chunks[..k];
      if Reached(arguments, before, codec) {
        var k :| 0 < k <= n - 1 && Extends(arguments, codec.parse(Concat(before[..k])));
        assert Extends(arguments, codec.parse(Concat(chunks[..k])));
      }
      if Reached(arguments, chunks, codec) && !Extends(arguments, codec.parse(Concat(chunks))) {
        var k :| 0 < k <= n && Extends(arguments, codec.parse(Concat(chunks[..k])));
        assert Extends(arguments, codec.parse(Concat(before[..k])));
      }
    }
  }

  /** What the replay of an open tool call shows: its start snapshot until the raw JSON has reached it, and from then on
      what all of the raw JSON parses to. */
  lemma OpenCallReplays(events: seq<Event>, i: nat, codec: Codec)
    requires codec.Faithful() && ViewOf(events).Some? && i < |ViewOf(events).value.blocks|
    requires var b := ViewOf(events).value.blocks[i]; b.ending.None? && b.snapshot.ToolCall?
    ensures EncodeAll(events, codec).Ok?
    ensures var replayed := Reduce(EncodeAll(events, codec).value.1, codec);
            replayed.Ok? && replayed.value.Some? && i < |replayed.value.value.content|
    ensures
      var b := ViewOf(events).value.blocks[i];
      var call, raw := b.snapshot.call, Concat(b.deltas);
      var shown := Reduce(EncodeAll(events, codec).value.1, codec).value.value.content[i];
      shown == ToolCall(call.(arguments :=
        if raw != "" && (call.arguments == codec.parse("") || Reached(call.arguments, b.deltas, codec))
        then codec.parse(raw) else call.arguments))
  {
    RoundTrip(events, codec);
    PipelineFollows(events, codec);
    var b := ViewOf(events).value.blocks[i];
    CaughtUpIff(b.snapshot.call.arguments, b.deltas, codec);
  }

  /** The encoder decides the same: a delta of an open call that it does not trust yet lets out all the raw JSON, as a
      checkpoint, exactly when that has reached the snapshot, and nothing before. */
  lemma CheckpointIff(events: seq<Event>, i: nat, delta: string, codec: Codec)
    requires codec.Faithful() && ViewOf(events).Some? && i < |ViewOf(events).value.blocks|
    requires Observe(ViewOf(events).value, BlockDelta(CallKind, i, delta)).Some?
    requires var b := ViewOf(events).value.blocks[i];
             b.snapshot.call.arguments != codec.parse("") && !Reached(b.snapshot.call.arguments, b.deltas, codec)
    ensures EncodeAll(events, codec).Ok?
    ensures var b := ViewOf(events).value.blocks[i];
            var json := Concat(b.deltas) + delta;
            Encode(EncodeAll(events, codec).value.0, BlockDelta(CallKind, i, delta), codec).1
            == Ok(if json != "" && Extends(b.snapshot.call.arguments, codec.parse(json)) then Some(Checkpoint(i, json))
                  else None)
  {
    PipelineFollows(events, codec);
    var e, b := EncodeAll(events, codec).value.0, ViewOf(events).value.blocks[i];
    var snapshot, json := b.snapshot.call.arguments, Concat(b.deltas) + delta;
    assert EncodesBlock(e.blocks[i], b, codec);
    CaughtUpIff(snapshot, b.deltas, codec);
    PrefixIff(snapshot, codec.parse(json));
    JsonPrefixReflexive(snapshot);
    assert codec.parse(codec.show(snapshot)) == snapshot;
    assert codec.parse(codec.show(codec.parse(json))) == codec.parse(json);
  }

  /** A parser that goes on from what it has read. */
  ghost predicate Grows(codec: Codec) {
    forall text, more :: Extends(codec.parse(text), codec.parse(text + more))
  }

  lemma {:induction false} ConcatSplits(chunks: seq<string>, n: nat) returns (rest: string)
    requires n <= |chunks|
    ensures Concat(chunks) == Concat(chunks[..n]) + rest
    decreases |chunks|
  {
    if n == |chunks| {
      assert chunks[..n] == chunks;
      rest := "";
    } else {
      var before := chunks[..|chunks| - 1];
      rest := ConcatSplits(before, n);
      assert before[..n] == chunks[..n];
      rest := rest + chunks[|chunks| - 1];
    }
  }

  /** With such a parser nothing of the start snapshot is ever lost: every string and item of it is in the replay of the
      open call, perhaps longer. */
  lemma OpenCallKeepsSnapshot(events: seq<Event>, i: nat, codec: Codec)
    requires codec.Faithful() && Grows(codec)
    requires ViewOf(events).Some? && i < |ViewOf(events).value.blocks|
    requires var b := ViewOf(events).value.blocks[i]; b.ending.None? && b.snapshot.ToolCall?
    ensures EncodeAll(events, codec).Ok?
    ensures var replayed := Reduce(EncodeAll(events, codec).value.1, codec);
            && replayed.Ok? && replayed.value.Some? && i < |replayed.value.value.content|
            && replayed.value.value.content[i].ToolCall?
            && Extends(ViewOf(events).value.blocks[i].snapshot.call.arguments,
                       replayed.value.value.content[i].call.arguments)
  {
    OpenCallReplays(events, i, codec);
    var b := ViewOf(events).value.blocks[i];
    var arguments, raw := b.snapshot.call.arguments, Concat(b.deltas);
    JsonPrefixReflexive(arguments);
    PrefixIff(arguments, arguments);
    if arguments == codec.parse("") {
      assert "" + raw == raw;
    } else if Reached(arguments, b.deltas, codec) {
      var n :| 0 < n <= |b.deltas| && Extends(arguments, codec.parse(Concat(b.deltas[..n])));
      var rest := ConcatSplits(b.deltas, n);
      var seen := codec.parse(Concat(b.deltas[..n]));
      assert Extends(seen, codec.parse(raw));
      PrefixIff(arguments, seen);
      PrefixIff(seen, codec.parse(raw));
      JsonPrefixTransitive(arguments, seen, codec.parse(raw));
      PrefixIff(arguments, codec.parse(raw));
    }
  }

  /** Once caught up, always caught up: the replayed arguments never fall back to the snapshot. */
  lemma {:induction false} CaughtUpStays(arguments: Json, chunks: seq<string>, more: seq<string>, codec: Codec)
    requires CaughtUp(arguments, chunks, codec)
    ensures CaughtUp(arguments, chunks + more, codec)
    decreases |more|
  {
    if more == [] {
      assert chunks + more == chunks;
    } else {
      var n := |more| - 1;
      CaughtUpStays(arguments, chunks, more[..n], codec);
      assert (chunks + more)[..|chunks + more| - 1] == chunks + more[..n];
    }
  }

  /** A checkpoint carries the whole raw JSON so far, and its arguments extend the start snapshot. */
  lemma CheckpointExtendsSnapshot(events: seq<Event>, i: nat, delta: string, codec: Codec)
    requires codec.Faithful() && ViewOf(events).Some?
    requires EncodeAll(events, codec).Ok?
    requires var out := Encode(EncodeAll(events, codec).value.0, BlockDelta(CallKind, i, delta), codec).1;
             out.Ok? && out.value.Some? && out.value.value.Checkpoint?
    ensures var out := Encode(EncodeAll(events, codec).value.0, BlockDelta(CallKind, i, delta), codec).1;
            var json := out.value.value.json;
            var blocks := ViewOf(events).value.blocks;
            && i < |blocks| && blocks[i].snapshot.ToolCall?
            && json == Concat(blocks[i].deltas + [delta])
            && Extends(blocks[i].snapshot.call.arguments, codec.parse(json))
  {
    PipelineFollows(events, codec);
    var e := EncodeAll(events, codec).value.0;
    var b := ViewOf(events).value.blocks[i];
    assert EncodesBlock(e.blocks[i], b, codec);
    ConcatAppend(b.deltas, delta);
    var snapshot := b.snapshot.call.arguments;
    assert codec.parse(codec.show(snapshot)) == snapshot;
    JsonPrefixReflexive(snapshot);
    var arguments := codec.parse(Concat(b.deltas) + delta);
    assert codec.parse(codec.show(arguments)) == arguments;
    PrefixIff(snapshot, arguments);
  }

  /** Every reducer state reached without an error: states and content name the same blocks. */
  predicate Consistent(r: Replay) {
    && (r.message.None? ==> r.states == map[])
    && forall i | i in r.states ::
         i < |r.message.value.content| && KindOfContent(r.message.value.content[i]) == Some(r.states[i].kind)
  }

  lemma StepConsistent(r: Replay, f: Frame, codec: Codec)
    requires Consistent(r) && ReplayStep(r, f, codec).Ok?
    ensures Consistent(ReplayStep(r, f, codec).value)
  {
  }

  lemma {:induction false} ReplayConsistent(frames: seq<Frame>, codec: Codec)
    requires ReplayAll(frames, codec).Ok?
    ensures Consistent(ReplayAll(frames, codec).value)
  {
    if frames != [] {
      ReplayConsistent(frames[..|frames| - 1], codec);
      StepConsistent(ReplayAll(frames[..|frames| - 1], codec).value, frames[|frames| - 1], codec);
    }
  }

  /** Acceptance by the reducer is prefix-closed: whatever part of a log was committed can be replayed. */
  lemma ReduceIsPrefixClosed(frames: seq<Frame>, n: nat, codec: Codec)
    requires Reduce(frames, codec).Ok? && n <= |frames|
    ensures Reduce(frames[..n], codec).Ok?
  {
    ReplayErrorStays(frames, n, codec);
    ReplayConsistent(frames[..n], codec);
  }
}
