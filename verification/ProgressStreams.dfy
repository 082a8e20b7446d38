/** The checkpoint store seen stream by stream. Every stream of every run is a list of its own: a frame joins the list
    of its stream, and a clearing record empties the list of its stream, or those of all streams of its run. */
module ProgressStreams {
  import opened Progress

  datatype Key = Key(lane: string, runId: string, stream: nat)

  function KeyOf(frame: Frame): Key {
    Key(frame.lane, frame.runId, frame.stream)
  }

  /** The frames of one stream, in order. */
  function StreamOf(frames: seq<Frame>, k: Key): seq<Frame> {
    if frames == [] then []
    else
      var last := frames[|frames| - 1];
      StreamOf(frames[..|frames| - 1], k) + if KeyOf(last) == k then [last] else []
  }

  /** What a stream is after a batch of records. */
  function StreamAfter(own: seq<Frame>, records: seq<Frame>, k: Key): seq<Frame> {
    if records == [] then own
    else
      var before, last := StreamAfter(own, records[..|records| - 1], k), records[|records| - 1];
      match last.op
      case Append => if KeyOf(last) == k then before + [last] else before
      case ClearStream => if KeyOf(last) == k then [] else before
      case ClearRun => if last.lane == k.lane && last.runId == k.runId then [] else before
      case CommitStream => before
  }

  lemma {:induction false} StreamOfOnly(frames: seq<Frame>, keep: Frame -> bool, k: Key, stays: bool)
    requires forall frame :: KeyOf(frame) == k ==> keep(frame) == stays
    ensures StreamOf(Only(frames, keep), k) == if stays then StreamOf(frames, k) else []
  {
    if frames != [] {
      var rest, last := frames[..|frames| - 1], frames[|frames| - 1];
      StreamOfOnly(rest, keep, k, stays);
      if keep(last) {
        assert (Only(rest, keep) + [last])[..|Only(rest, keep)|] == Only(rest, keep);
      } else {
        assert Only(frames, keep) == Only(rest, keep);
      }
    }
  }

  /** A batch acts on every stream by itself. */
  lemma {:induction false} StreamsApply(frames: seq<Frame>, records: seq<Frame>, k: Key)
    ensures StreamOf(Applied(frames, records), k) == StreamAfter(StreamOf(frames, k), records, k)
  {
    if records != [] {
      var rest, last := records[..|records| - 1], records[|records| - 1];
      StreamsApply(frames, rest, k);
      var before := Applied(frames, rest);
      match last.op
      case Append =>
        assert (before + [last])[..|before|] == before;
      case ClearStream =>
        StreamOfOnly(before, Uncleared(last), k, KeyOf(last) != k);
      case ClearRun =>
        StreamOfOnly(before, Uncleared(last), k, last.lane != k.lane || last.runId != k.runId);
      case CommitStream =>
        StreamOfOnly(before, Uncleared(last), k, true);
    }
  }

  /** Pruning empties the streams of completed runs, each run in its own lane, and no others. */
  lemma StreamsPrune(frames: seq<Frame>, completed: CompletedRuns, k: Key)
    ensures StreamOf(Only(frames, Unfinished(completed)), k)
            == if k.lane in completed && k.runId in completed[k.lane] then [] else StreamOf(frames, k)
  {
    StreamOfOnly(frames, Unfinished(completed), k, !(k.lane in completed && k.runId in completed[k.lane]));
  }

  lemma {:induction false} StreamMembers(frames: seq<Frame>, frame: Frame)
    ensures frame in StreamOf(frames, KeyOf(frame)) <==> frame in frames
  {
    if frames != [] {
      assert frames == frames[..|frames| - 1] + [frames[|frames| - 1]];
      StreamMembers(frames[..|frames| - 1], frame);
    }
  }

  lemma SameInit(a: seq<Frame>, b: seq<Frame>, x: Frame)
    requires a + [x] == b + [x]
    ensures a == b
  {
    assert (a + [x])[..|a|] == a && (b + [x])[..|b|] == b;
    assert |a + [x]| == |b + [x]|;
  }

  lemma StreamsInit(a: seq<Frame>, b: seq<Frame>, x: Frame, k: Key)
    requires StreamOf(a + [x], k) == StreamOf(b + [x], k)
    ensures StreamOf(a, k) == StreamOf(b, k)
  {
    assert (a + [x])[..|a|] == a && (b + [x])[..|b|] == b;
    if KeyOf(x) == k {
      SameInit(StreamOf(a, k), StreamOf(b, k), x);
    }
  }

  lemma LastIsSame(a: seq<Frame>, b: seq<Frame>)
    requires Increasing(a) && Increasing(b) && a != [] && b != []
    requires a[|a| - 1] in b && b[|b| - 1] in a
    ensures a[|a| - 1] == b[|b| - 1]
  {
  }

  /** The streams say all there is to say of a checkpoint: its sequence numbers put them in order. */
  lemma {:induction false} StreamsDecide(a: seq<Frame>, b: seq<Frame>)
    requires Increasing(a) && Increasing(b) && forall k :: StreamOf(a, k) == StreamOf(b, k)
    ensures a == b
  {
    if a == [] || b == [] {
      if a != [] {
        StreamMembers(a, a[0]);
      } else if b != [] {
        StreamMembers(b, b[0]);
      }
    } else {
      var x, y := a[|a| - 1], b[|b| - 1];
      StreamMembers(a, x);
      StreamMembers(a, y);
      StreamMembers(b, x);
      StreamMembers(b, y);
      LastIsSame(a, b);
      var rest, rest' := a[..|a| - 1], b[..|b| - 1];
      assert a == rest + [x] && b == rest' + [x];
      forall k ensures StreamOf(rest, k) == StreamOf(rest', k) {
        StreamsInit(rest, rest', x, k);
      }
      StreamsDecide(rest, rest');
    }
  }
}
