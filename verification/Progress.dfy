/** The checkpoint store of `progress.rs`: frames of unfinished runs, cleared by later records. */
module Progress {
  import opened JsonValues

  const U64_MAX := 0xFFFF_FFFF_FFFF_FFFF

  datatype Op = Append | ClearStream | ClearRun | CommitStream

  datatype Frame = Frame(id: string, lane: string, runId: string, stream: nat, op: Op,
                         payload: Option<string>, sequence: nat, timestamp: int)

  datatype ProgressError = InvalidPayload | InvalidCheckpoint | SequenceOverflow

  datatype Prepared = Ready(batch: seq<Frame>) | Refused(error: ProgressError)

  type CompletedRuns = map<string, set<string>>

  predicate Clears(record: Frame, frame: Frame) {
    && frame.runId == record.runId && frame.lane == record.lane
    && (record.op.ClearRun? || (record.op.ClearStream? && frame.stream == record.stream))
  }

  predicate IsCompleted(frame: Frame, completed: CompletedRuns) {
    frame.lane in completed && frame.runId in completed[frame.lane]
  }

  // ----- what the operations compute -----

  /** The frames that satisfy `keep`, in order. */
  function Only(frames: seq<Frame>, keep: Frame -> bool): seq<Frame> {
    if frames == [] then []
    else
      var last := frames[|frames| - 1];
      Only(frames[..|frames| - 1], keep) + if keep(last) then [last] else []
  }

  function Uncleared(record: Frame): Frame -> bool {
    (frame: Frame) => !Clears(record, frame)
  }

  /** Not cleared by any record of a batch, wherever in the batch it stands. */
  function Surviving(records: seq<Frame>): Frame -> bool {
    (frame: Frame) => forall record | record in records :: !Clears(record, frame)
  }

  function Unfinished(completed: CompletedRuns): Frame -> bool {
    (frame: Frame) => !IsCompleted(frame, completed)
  }

  /** One record after another. */
  function Applied(frames: seq<Frame>, records: seq<Frame>): seq<Frame> {
    if records == [] then frames
    else
      var before, last := Applied(frames, records[..|records| - 1]), records[|records| - 1];
      if last.op.Append? then before + [last] else Only(before, Uncleared(last))
  }

  function Ids(frames: seq<Frame>): set<string> {
    set frame | frame in frames :: frame.id
  }

  // ----- filtering -----

  lemma {:induction false} OnlySplits(a: seq<Frame>, b: seq<Frame>, keep: Frame -> bool)
    ensures Only(a + b, keep) == Only(a, keep) + Only(b, keep)
  {
    if b == [] {
      assert a + b == a;
    } else {
      assert (a + b)[..|a + b| - 1] == a + b[..|b| - 1];
      OnlySplits(a, b[..|b| - 1], keep);
    }
  }

  lemma {:induction false} OnlyTwice(frames: seq<Frame>, f: Frame -> bool, g: Frame -> bool, both: Frame -> bool)
    requires forall frame :: both(frame) <==> f(frame) && g(frame)
    ensures Only(Only(frames, f), g) == Only(frames, both)
  {
    if frames != [] {
      var rest, last := frames[..|frames| - 1], frames[|frames| - 1];
      OnlyTwice(rest, f, g, both);
      assert Only([last], g) == if g(last) then [last] else [] by {
        assert [last][..0] == [];
      }
      if f(last) {
        OnlySplits(Only(rest, f), [last], g);
      } else {
        assert Only(frames, f) == Only(rest, f);
      }
    }
  }

  lemma {:induction false} OnlyAll(frames: seq<Frame>, keep: Frame -> bool)
    requires forall frame | frame in frames :: keep(frame)
    ensures Only(frames, keep) == frames
  {
    if frames != [] {
      var rest := frames[..|frames| - 1];
      assert forall frame | frame in rest :: frame in frames;
      OnlyAll(rest, keep);
      assert frames[|frames| - 1] in frames;
      assert frames == rest + [frames[|frames| - 1]];
    }
  }

  /** Exactly the frames that satisfy `keep` stay. */
  lemma {:induction false} OnlyMembers(frames: seq<Frame>, keep: Frame -> bool)
    ensures forall frame :: frame in Only(frames, keep) <==> frame in frames && keep(frame)
  {
    if frames != [] {
      var rest, last := frames[..|frames| - 1], frames[|frames| - 1];
      assert frames == rest + [last];
      OnlyMembers(rest, keep);
    }
  }

  // ----- a batch as a whole -----

  /** A batch drops what any of its records clears and adds what survives of its own. */
  lemma {:induction false} AppliedSplits(frames: seq<Frame>, records: seq<Frame>)
    ensures Applied(frames, records) == Only(frames, Surviving(records)) + Applied([], records)
  {
    if records == [] {
      OnlyAll(frames, Surviving([]));
    } else {
      var rest, last := records[..|records| - 1], records[|records| - 1];
      assert records == rest + [last];
      AppliedSplits(frames, rest);
      OnlyTwice(frames, Surviving(rest), Uncleared(last), Surviving(records));
      if last.op.Append? {
        OnlyAll(Only(frames, Surviving(rest)), Uncleared(last));
      } else {
        OnlySplits(Only(frames, Surviving(rest)), Applied([], rest), Uncleared(last));
      }
    }
  }

  /** A record that appends a frame nothing later in the batch clears. */
  predicate Lasts(records: seq<Frame>, i: nat) {
    i < |records| && records[i].op.Append? && forall j | i < j < |records| :: !Clears(records[j], records[i])
  }

  /** What a batch leaves: an old frame that no record clears, or a new one that no later record clears. */
  lemma {:induction false} AppliedMembers(frames: seq<Frame>, records: seq<Frame>, frame: Frame)
    ensures frame in Applied(frames, records) <==>
              || (frame in frames && Surviving(records)(frame))
              || exists i: nat :: Lasts(records, i) && records[i] == frame
  {
    if records != [] {
      var rest, last := records[..|records| - 1], records[|records| - 1];
      assert records == rest + [last];
      AppliedMembers(frames, rest, frame);
      OnlyMembers(Applied(frames, rest), Uncleared(last));
      assert forall i: nat :: Lasts(records, i) && i < |rest| ==> Lasts(rest, i) && !Clears(last, rest[i]);
      assert forall i: nat :: Lasts(rest, i) && !Clears(last, rest[i]) ==> Lasts(records, i) && records[i] == rest[i];
      if last.op.Append? {
        assert Lasts(records, |rest|);
      }
    }
  }

  /** So filtering the batch's victims out first changes nothing. */
  lemma ProjectionIsApplication(frames: seq<Frame>, records: seq<Frame>)
    ensures Applied(Only(frames, Surviving(records)), records) == Applied(frames, records)
  {
    var kept := Only(frames, Surviving(records));
    AppliedSplits(frames, records);
    AppliedSplits(kept, records);
    OnlyTwice(frames, Surviving(records), Surviving(records), Surviving(records));
  }

  // ----- sound checkpoints and prepared batches -----

  predicate Named(frame: Frame) {
    frame.id != "" && frame.lane != "" && frame.runId != ""
  }

  predicate Distinct(frames: seq<Frame>) {
    forall i, j | 0 <= i < j < |frames| :: frames[i].id != frames[j].id
  }

  predicate Increasing(frames: seq<Frame>) {
    forall i, j | 0 <= i < j < |frames| :: frames[i].sequence < frames[j].sequence
  }

  predicate Kept(frame: Frame, sequence: nat) {
    frame.op.Append? && frame.payload.Some? && Named(frame) && 1 <= frame.sequence <= sequence
  }

  /** What a checkpoint must be. */
  predicate Sound(sequence: nat, frames: seq<Frame>) {
    Distinct(frames) && Increasing(frames) && forall i | 0 <= i < |frames| :: Kept(frames[i], sequence)
  }

  predicate LegalRecord(record: Frame) {
    Named(record) && !record.op.CommitStream? && (record.op.Append? <==> record.payload.Some?)
  }

  predicate Admissible(records: seq<Frame>, ids: set<string>) {
    && Distinct(records)
    && forall i | 0 <= i < |records| :: LegalRecord(records[i]) && records[i].id !in ids
  }

  predicate Stamped(records: seq<Frame>, batch: seq<Frame>, sequence: nat) {
    && |batch| == |records|
    && forall i | 0 <= i < |batch| ::
         batch[i] == records[i].(sequence := sequence + 1 + i, timestamp := batch[i].timestamp)
  }

  /** What `prepare` hands to `apply`. */
  predicate IsBatch(batch: seq<Frame>, sequence: nat, ids: set<string>) {
    && Admissible(batch, ids) && sequence + |batch| <= U64_MAX
    && forall i | 0 <= i < |batch| :: batch[i].sequence == sequence + 1 + i
  }

  /** Comes after all of these frames, under an id of its own. */
  predicate Follows(frames: seq<Frame>, last: Frame) {
    forall frame | frame in frames :: frame.id != last.id && frame.sequence < last.sequence
  }

  lemma SoundAppend(sequence: nat, frames: seq<Frame>, last: Frame)
    requires Sound(sequence, frames) && Kept(last, sequence) && Follows(frames, last)
    ensures Sound(sequence, frames + [last])
  {
    var more := frames + [last];
    forall i, j | 0 <= i < j < |more| ensures more[i].id != more[j].id && more[i].sequence < more[j].sequence {
      if j == |frames| {
        assert more[i] in frames;
      }
    }
  }

  lemma SoundInit(sequence: nat, frames: seq<Frame>)
    requires Sound(sequence, frames) && frames != []
    ensures Sound(sequence, frames[..|frames| - 1])
    ensures Kept(frames[|frames| - 1], sequence) && Follows(frames[..|frames| - 1], frames[|frames| - 1])
  {
  }

  /** Dropping frames keeps a checkpoint sound. */
  lemma {:induction false} SoundOnly(sequence: nat, frames: seq<Frame>, keep: Frame -> bool)
    requires Sound(sequence, frames)
    ensures Sound(sequence, Only(frames, keep))
  {
    if frames != [] {
      var rest, last := frames[..|frames| - 1], frames[|frames| - 1];
      SoundInit(sequence, frames);
      SoundOnly(sequence, rest, keep);
      if keep(last) {
        OnlyMembers(rest, keep);
        SoundAppend(sequence, Only(rest, keep), last);
      } else {
        assert Only(frames, keep) == Only(rest, keep);
      }
    }
  }

  // ----- the store -----

  class ProgressState {
    var sequence: nat
    var frames: seq<Frame>
    var ids: set<string>

    ghost predicate Valid()
      reads this
    {
      sequence <= U64_MAX && Sound(sequence, frames) && ids == Ids(frames)
    }

    constructor AtSequence(sequence: nat)
      requires sequence <= U64_MAX
      ensures Valid() && this.sequence == sequence && frames == []
    {
      this.sequence, frames, ids := sequence, [], {};
    }

    /** A checkpoint as it is read back: without its index. */
    constructor Deserialized(sequence: nat, frames: seq<Frame>)
      requires sequence <= U64_MAX
      ensures this.sequence == sequence && this.frames == frames && ids == {}
    {
      this.sequence, this.frames, ids := sequence, frames, {};
    }

    constructor Candidate(sequence: nat, frames: seq<Frame>)
      requires sequence <= U64_MAX
      ensures this.sequence == sequence && this.frames == frames && ids == Ids(frames)
    {
      this.sequence, this.frames, ids := sequence, frames, set frame | frame in frames :: frame.id;
    }

    /** Identity, distinctness and operation of every record. */
    method CheckRecords(records: seq<Frame>) returns (ok: bool)
      ensures ok == Admissible(records, ids)
    {
      var seen: set<string> := {};
      for i := 0 to |records|
        invariant Admissible(records[..i], ids) && seen == Ids(records[..i])
      {
        var record := records[i];
        AdmitStep(records, ids, i);
        if record.id == "" || record.lane == "" || record.runId == "" {
          return false;
        }
        if record.id in ids || record.id in seen {
          return false;
        }
        seen := seen + {record.id};
        if !((record.op.Append? && record.payload.Some?)
             || ((record.op.ClearRun? || record.op.ClearStream?) && record.payload.None?)) {
          return false;
        }
      }
      assert records[..|records|] == records;
      ok := true;
    }

    /** `prepare`: the whole batch is checked before any record is stamped; timestamps come from a clock. */
    method Prepare(records: seq<Frame>) returns (r: Prepared)
      requires sequence <= U64_MAX
      ensures r.Ready? <==> Admissible(records, ids) && sequence + |records| <= U64_MAX
      ensures r.Ready? ==> Stamped(records, r.batch, sequence) && IsBatch(r.batch, sequence, ids)
      ensures r == Refused(InvalidPayload) <==> !Admissible(records, ids)
    {
      var ok := CheckRecords(records);
      if !ok {
        return Refused(InvalidPayload);
      }
      var batch, last := [], sequence;
      for i := 0 to |records|
        invariant last == sequence + i <= U64_MAX
        invariant Stamped(records[..i], batch, sequence)
      {
        if last == U64_MAX {
          return Refused(SequenceOverflow);
        }
        last := last + 1;
        var now: int :| true;
        batch := batch + [records[i].(sequence := last, timestamp := now)];
      }
      assert records[..|records|] == records;
      StampedIsBatch(records, batch, sequence, ids);
      r := Ready(batch);
    }

    /** `Vec::retain`, with the index kept in step. */
    method Retain(keep: Frame -> bool)
      requires Sound(sequence, frames) && ids == Ids(frames)
      modifies this`frames, this`ids
      ensures frames == Only(old(frames), keep) && ids == Ids(frames) && Sound(sequence, frames)
    {
      var all, kept := frames, [];
      for i := 0 to |all|
        invariant kept == Only(all[..i], keep) && ids == Ids(kept) + Ids(all[i..])
      {
        RetainStep(all, keep, i, ids);
        if keep(all[i]) {
          kept := kept + [all[i]];
        } else {
          ids := ids - {all[i].id};
        }
      }
      assert all[..|all|] == all;
      SoundOnly(sequence, all, keep);
      frames := kept;
    }

    method ApplyOne(record: Frame)
      requires Valid() && LegalRecord(record) && record.sequence == sequence + 1 <= U64_MAX && record.id !in ids
      modifies this
      ensures Valid() && sequence == old(sequence) + 1 && ids <= old(ids) + {record.id}
      ensures frames == if record.op.Append? then old(frames) + [record] else Only(old(frames), Uncleared(record))
    {
      SoundLater(sequence, frames, record.sequence);
      sequence := record.sequence;
      if record.op.Append? {
        assert forall frame | frame in frames :: frame.id in Ids(frames);
        SoundAppend(sequence, frames, record);
        ids := ids + {record.id};
        frames := frames + [record];
      } else {
        OnlyMembers(frames, Uncleared(record));
        Retain(Uncleared(record));
      }
    }

    /** `apply`, of a batch that `prepare` returned. */
    method Apply(records: seq<Frame>)
      requires Valid() && IsBatch(records, sequence, ids)
      modifies this
      ensures Valid() && frames == Applied(old(frames), records) && sequence == old(sequence) + |records|
    {
      for i := 0 to |records|
        invariant Valid() && sequence == old(sequence) + i && frames == Applied(old(frames), records[..i])
        invariant Unseen(records[i..], ids)
      {
        BatchStep(records, old(sequence), old(ids), i, ids);
        ApplyOne(records[i]);
        AppliedStep(old(frames), records, i);
      }
      assert records[..|records|] == records;
    }

    /** `project`: a new state, from the frames no record of the batch clears. */
    method Project(records: seq<Frame>) returns (projected: ProgressState)
      requires Valid() && IsBatch(records, sequence, ids)
      ensures fresh(projected) && projected.Valid()
      ensures projected.frames == Applied(frames, records) && projected.sequence == sequence + |records|
    {
      var kept := Only(frames, Surviving(records));
      SoundOnly(sequence, frames, Surviving(records));
      OnlyMembers(frames, Surviving(records));
      projected := new ProgressState.Candidate(sequence, kept);
      projected.Apply(records);
      ProjectionIsApplication(frames, records);
    }

    method PruneCompleted(completed: CompletedRuns) returns (pruned: nat)
      requires Valid()
      modifies this
      ensures Valid() && frames == Only(old(frames), Unfinished(completed)) && sequence == old(sequence)
      ensures pruned == |old(frames)| - |frames|
    {
      var before := |frames|;
      OnlyShorter(frames, Unfinished(completed));
      Retain(Unfinished(completed));
      pruned := before - |frames|;
    }

    /** `project_completed`: the pruned state, or nothing when there is nothing to prune. */
    method ProjectCompleted(completed: CompletedRuns) returns (projected: Option<ProgressState>)
      requires Valid()
      ensures projected.None? <==> Only(frames, Unfinished(completed)) == frames
      ensures projected.Some? ==>
                && fresh(projected.value) && projected.value.Valid() && projected.value.sequence == sequence
                && projected.value.frames == Only(frames, Unfinished(completed))
    {
      OnlyMembers(frames, Unfinished(completed));
      if forall frame | frame in frames :: !IsCompleted(frame, completed) {
        OnlyAll(frames, Unfinished(completed));
        return None;
      }
      SoundOnly(sequence, frames, Unfinished(completed));
      var state := new ProgressState.Candidate(sequence, Only(frames, Unfinished(completed)));
      projected := Some(state);
    }

    /** `validate`: accepts exactly the sound checkpoints, and gives back the index that was not stored. */
    method Validate() returns (ok: bool)
      requires sequence <= U64_MAX
      modifies this`ids
      ensures ok <==> Sound(sequence, frames)
      ensures if ok then Valid() else ids == old(ids)
    {
      var previous := 0;
      var seen: set<string> := {};
      for i := 0 to |frames|
        invariant seen == Ids(frames[..i]) && Sound(sequence, frames[..i]) && ids == old(ids)
        invariant previous == if i == 0 then 0 else frames[i - 1].sequence
      {
        var frame := frames[i];
        if !frame.op.Append? || frame.payload.None? || frame.sequence <= previous || frame.sequence > sequence
           || frame.id == "" || frame.lane == "" || frame.runId == "" || frame.id in seen
        {
          UnsoundAt(sequence, frames, i, previous);
          return false;
        }
        ValidateStep(sequence, frames, i, previous);
        seen := seen + {frame.id};
        previous := frame.sequence;
      }
      assert frames[..|frames|] == frames;
      ids := seen;
      ok := true;
    }
  }

  lemma RetainStep(all: seq<Frame>, keep: Frame -> bool, i: nat, ids: set<string>)
    requires Distinct(all) && i < |all| && ids == Ids(Only(all[..i], keep)) + Ids(all[i..])
    ensures Only(all[..i + 1], keep) == Only(all[..i], keep) + if keep(all[i]) then [all[i]] else []
    ensures (if keep(all[i]) then ids else ids - {all[i].id}) == Ids(Only(all[..i + 1], keep)) + Ids(all[i + 1..])
  {
    assert all[..i + 1][..i] == all[..i];
    assert all[i..] == [all[i]] + all[i + 1..];
    OnlyMembers(all[..i], keep);
  }

  lemma AdmitStep(records: seq<Frame>, ids: set<string>, i: nat)
    requires i < |records| && Admissible(records[..i], ids)
    ensures
      var record := records[i];
      var fine := LegalRecord(record) && record.id !in ids && record.id !in Ids(records[..i]);
      if fine then Admissible(records[..i + 1], ids) else !Admissible(records, ids)
    ensures Ids(records[..i + 1]) == Ids(records[..i]) + {records[i].id}
  {
    assert records[..i + 1] == records[..i] + [records[i]];
    if records[i].id in Ids(records[..i]) {
      var j :| 0 <= j < i && records[..i][j].id == records[i].id;
      assert !Distinct(records);
    } else {
      assert forall j | 0 <= j < i :: records[..i][j].id != records[i].id;
    }
  }

  lemma StampedIsBatch(records: seq<Frame>, batch: seq<Frame>, sequence: nat, ids: set<string>)
    requires Admissible(records, ids) && Stamped(records, batch, sequence) && sequence + |records| <= U64_MAX
    ensures IsBatch(batch, sequence, ids)
  {
    assert forall i | 0 <= i < |batch| :: batch[i].id == records[i].id;
  }

  predicate Unseen(records: seq<Frame>, ids: set<string>) {
    forall record | record in records :: record.id !in ids
  }

  /** A record of a batch, after the ones before it. */
  lemma BatchStep(records: seq<Frame>, sequence: nat, known: set<string>, i: nat, ids: set<string>)
    requires IsBatch(records, sequence, known) && i < |records| && Unseen(records[i..], ids)
    ensures LegalRecord(records[i]) && records[i].sequence == sequence + i + 1 <= U64_MAX && records[i].id !in ids
    ensures forall now | now <= ids + {records[i].id} :: Unseen(records[i + 1..], now)
  {
    assert records[i..] == [records[i]] + records[i + 1..];
    assert records[i] in records[i..];
    assert forall record | record in records[i + 1..] :: record in records[i..] && record.id != records[i].id;
  }

  lemma AppliedStep(frames: seq<Frame>, records: seq<Frame>, i: nat)
    requires i < |records|
    ensures Applied(frames, records[..i + 1])
            == if records[i].op.Append? then Applied(frames, records[..i]) + [records[i]]
               else Only(Applied(frames, records[..i]), Uncleared(records[i]))
  {
    assert records[..i + 1][..i] == records[..i];
  }

  lemma ValidateStep(sequence: nat, frames: seq<Frame>, i: nat, previous: nat)
    requires i < |frames| && Sound(sequence, frames[..i]) && Kept(frames[i], sequence)
    requires previous == (if i == 0 then 0 else frames[i - 1].sequence) && frames[i].sequence > previous
    requires frames[i].id !in Ids(frames[..i])
    ensures Sound(sequence, frames[..i + 1]) && Ids(frames[..i + 1]) == Ids(frames[..i]) + {frames[i].id}
  {
    assert frames[..i + 1] == frames[..i] + [frames[i]];
    assert forall f | f in frames[..i] :: f.id in Ids(frames[..i]) && f.sequence <= previous;
    SoundAppend(sequence, frames[..i], frames[i]);
  }

  lemma SoundLater(sequence: nat, frames: seq<Frame>, later: nat)
    requires Sound(sequence, frames) && sequence <= later
    ensures Sound(later, frames)
  {
  }

  lemma {:induction false} OnlyShorter(frames: seq<Frame>, keep: Frame -> bool)
    ensures |Only(frames, keep)| <= |frames|
  {
    if frames != [] {
      OnlyShorter(frames[..|frames| - 1], keep);
    }
  }

  lemma UnsoundAt(sequence: nat, frames: seq<Frame>, i: nat, previous: nat)
    requires i < |frames| && previous == (if i == 0 then 0 else frames[i - 1].sequence)
    requires !Kept(frames[i], sequence) || frames[i].sequence <= previous || frames[i].id in Ids(frames[..i])
    ensures !Sound(sequence, frames)
  {
    if frames[i].id in Ids(frames[..i]) {
      var j :| 0 <= j < i && frames[..i][j].id == frames[i].id;
      assert !Distinct(frames);
    }
  }

  /** A second pruning finds nothing. */
  lemma PruningIsIdempotent(frames: seq<Frame>, completed: CompletedRuns)
    ensures Only(Only(frames, Unfinished(completed)), Unfinished(completed)) == Only(frames, Unfinished(completed))
    ensures forall frame | frame in Only(frames, Unfinished(completed)) :: !IsCompleted(frame, completed)
  {
    OnlyTwice(frames, Unfinished(completed), Unfinished(completed), Unfinished(completed));
    OnlyMembers(frames, Unfinished(completed));
  }
}
