/** A plugin's child run in `child_agents.rs`: what it puts out, what is polled of it, how it ends, and how many
    run at once. */
module ChildOutput {
  import opened JsonValues
  import ResultPaging

  const MAX_JOBS := 16
  const MAX_OUTPUT := 4 * 1024 * 1024
  const MAX_EVENTS := 8192
  const MAX_REPLY := 64 * 1024

  const LIMIT_EXCEEDED := "child output limit exceeded"

  datatype ChildEvent = TurnEnd | TextDelta(delta: string) | OtherEvent

  datatype Status = Running | Done | Failed

  datatype Reply = Reply(status: Status, deltas: seq<string>, turns: nat, result: Option<string>, error: Option<string>)

  /** The length of a text in UTF-8. */
  function Bytes(text: string): nat {
    |ResultPaging.Encode(text)|
  }

  function Total(deltas: seq<string>): nat {
    if deltas == [] then 0 else Total(deltas[..|deltas| - 1]) + Bytes(deltas[|deltas| - 1])
  }

  lemma TotalAppend(deltas: seq<string>, delta: string)
    ensures Total(deltas + [delta]) == Total(deltas) + Bytes(delta)
  {
    assert (deltas + [delta])[..|deltas|] == deltas;
  }

  class Job {
    var deltas: seq<string>
    var bytes: nat
    var events: nat
    var turns: nat
    var result: Option<string>
    var error: Option<string>
    var cancelled: bool
    ghost var accepted: seq<string>
    ghost var polled: seq<string>

    /** What was polled and what is queued is what was accepted, within the limits, and a run ends one way. */
    ghost predicate Valid()
      reads this
    {
      && accepted == polled + deltas
      && bytes == Total(accepted) && events == |accepted|
      && bytes + (if result.Some? then Bytes(result.value) else 0) <= MAX_OUTPUT && events <= MAX_EVENTS
      && (result.None? || error.None?)
    }

    predicate Settled()
      reads this
    {
      result.Some? || error.Some?
    }

    constructor ()
      ensures Valid() && accepted == [] && polled == [] && !Settled()
    {
      deltas, bytes, events, turns, result, error, cancelled := [], 0, 0, 0, None, None, false;
      accepted, polled := [], [];
    }

    /** The first ending stays. */
    method Fail(reason: string)
      requires Valid()
      modifies this
      ensures Valid() && cancelled && accepted == old(accepted) && polled == old(polled) && turns == old(turns)
      ensures result == old(result) && error == if old(Settled()) then old(error) else Some(reason)
    {
      if result.None? && error.None? {
        error := Some(reason);
      }
      cancelled := true;
    }

    /** A delta is queued, or ends the run when it would not fit; nothing is taken once the run has ended. */
    method Observe(event: ChildEvent)
      requires Valid()
      modifies this
      ensures Valid() && polled == old(polled) && result == old(result)
      ensures turns == old(turns) + if event.TurnEnd? && !old(Settled()) then 1 else 0
      ensures
        var fits := event.TextDelta? && old(bytes) + Bytes(event.delta) <= MAX_OUTPUT && old(events) < MAX_EVENTS;
        if old(Settled()) || !event.TextDelta? then accepted == old(accepted) && error == old(error)
        else if fits then accepted == old(accepted) + [event.delta] && error == old(error)
        else accepted == old(accepted) && error == Some(LIMIT_EXCEEDED) && cancelled
    {
      if result.Some? || error.Some? {
        return;
      }
      match event
      case TurnEnd =>
        turns := turns + 1;
      case TextDelta(delta) =>
        if bytes + Bytes(delta) > MAX_OUTPUT || events >= MAX_EVENTS {
          error := Some(LIMIT_EXCEEDED);
          cancelled := true;
        } else {
          Queue(delta);
        }
      case OtherEvent =>
    }

    /** One more delta. */
    method Queue(delta: string)
      requires Valid() && !Settled() && bytes + Bytes(delta) <= MAX_OUTPUT && events < MAX_EVENTS
      modifies this`bytes, this`events, this`deltas, this`accepted
      ensures Valid() && accepted == old(accepted) + [delta]
    {
      TotalAppend(accepted, delta);
      assert accepted + [delta] == polled + (deltas + [delta]);
      bytes := bytes + Bytes(delta);
      events := events + 1;
      deltas := deltas + [delta];
      accepted := accepted + [delta];
    }

    /** The end of `run_child`, once per job: the result, unless it does not fit or the run has failed. */
    method Publish(text: string)
      requires Valid() && result.None?
      modifies this
      ensures Valid() && accepted == old(accepted) && polled == old(polled) && turns == old(turns)
      ensures
        if old(error).Some? then result.None? && error == old(error)
        else if old(bytes) + Bytes(text) > MAX_OUTPUT then result.None? && error == Some(LIMIT_EXCEEDED)
        else result == Some(text) && error.None?
    {
      if bytes + Bytes(text) > MAX_OUTPUT {
        if error.None? {
          error := Some(LIMIT_EXCEEDED);
        }
      } else if error.None? {
        result := Some(text);
      }
    }

    /** `poll`: as many deltas as fit in a reply, at least one, and the ending only with the last of them. */
    method Poll() returns (reply: Reply)
      requires Valid()
      modifies this
      ensures Valid() && accepted == old(accepted) && result == old(result) && error == old(error)
      ensures polled == old(polled) + reply.deltas && reply.deltas + deltas == old(deltas)
      ensures reply.turns == turns == old(turns)
      ensures old(deltas) != [] ==> reply.deltas != []
      ensures |reply.deltas| > 1 ==> Total(reply.deltas) <= MAX_REPLY
      ensures deltas != [] ==> Total(reply.deltas + [deltas[0]]) > MAX_REPLY
      ensures reply.status == if deltas != [] || !Settled() then Running else if error.Some? then Failed else Done
      ensures reply.result == (if deltas == [] then result else None)
      ensures reply.error == (if deltas == [] then error else None)
    {
      var status := if error.Some? then Failed else if result.Some? then Done else Running;
      var taken := TakeDeltas();
      var drained := deltas == [];
      reply := Reply(if drained then status else Running, taken, turns,
                     if drained then result else None, if drained then error else None);
    }

    method TakeDeltas() returns (taken: seq<string>)
      requires Valid()
      modifies this`deltas, this`polled
      ensures Valid() && polled == old(polled) + taken && taken + deltas == old(deltas)
      ensures old(deltas) != [] ==> taken != []
      ensures |taken| > 1 ==> Total(taken) <= MAX_REPLY
      ensures deltas != [] ==> Total(taken + [deltas[0]]) > MAX_REPLY
    {
      var rest;
      taken, rest := TakeFront(deltas);
      assert polled + (taken + rest) == polled + taken + rest;
      deltas := rest;
      polled := polled + taken;
    }
  }

  /** From the front of the queue, while the reply stays within its limit. */
  method TakeFront(queue: seq<string>) returns (taken: seq<string>, rest: seq<string>)
    ensures taken + rest == queue && (queue != [] ==> taken != [])
    ensures |taken| > 1 ==> Total(taken) <= MAX_REPLY
    ensures rest != [] ==> Total(taken + [rest[0]]) > MAX_REPLY
  {
    taken, rest := [], queue;
    var total := 0;
    while rest != []
      invariant taken + rest == queue && total == Total(taken)
      invariant |taken| > 1 ==> total <= MAX_REPLY
      invariant rest == [] && queue != [] ==> taken != []
      decreases |rest|
    {
      TotalAppend(taken, rest[0]);
      if taken != [] && total + Bytes(rest[0]) > MAX_REPLY {
        break;
      }
      total := total + Bytes(rest[0]);
      assert taken + rest == taken + [rest[0]] + rest[1..];
      taken := taken + [rest[0]];
      rest := rest[1..];
    }
  }

  function Concat(replies: seq<Reply>): seq<string> {
    if replies == [] then [] else Concat(replies[..|replies| - 1]) + replies[|replies| - 1].deltas
  }

  /** Any sequence of observed events, failures, completion and polls: what was polled is a prefix of what was
      accepted, in order, all of it once a reply says that the run has ended, and then every later reply says so
      with the same result or error and no more deltas. */
  method AnyRun(job: Job, steps: nat) returns (replies: seq<Reply>)
    requires job.Valid() && job.polled == [] && !job.Settled()
    modifies job
    ensures job.Valid() && Concat(replies) <= job.accepted && Total(job.accepted) <= MAX_OUTPUT
    ensures Ends(replies, job.accepted, job.result, job.error, job.Settled())
  {
    replies := [];
    for i := 0 to steps
      invariant job.Valid() && job.polled == Concat(replies)
      invariant Ends(replies, job.accepted, job.result, job.error, job.Settled())
    {
      var which: int :| true;
      match which
      case 0 =>
        var event: ChildEvent :| true;
        job.Observe(event);
      case 1 =>
        var reason: string :| true;
        job.Fail(reason);
      case 2 =>
        var text: string :| true;
        if job.result.None? {
          job.Publish(text);
        }
      case _ =>
        var reply := job.Poll();
        EndsAppend(replies, reply, job.accepted, job.result, job.error, job.Settled());
        replies := replies + [reply];
    }
  }

  /** After this reply no deltas come, and every reply says that the run has ended. */
  predicate Silent(replies: seq<Reply>, i: nat) {
    forall j | i < j < |replies| :: replies[j].deltas == [] && !replies[j].status.Running?
  }

  /** Every reply that says the run has ended comes when all is polled, with its ending. */
  predicate Ends(replies: seq<Reply>, accepted: seq<string>, result: Option<string>, error: Option<string>,
                 settled: bool) {
    forall i | 0 <= i < |replies| && !replies[i].status.Running? ::
      && settled && replies[i].result == result && replies[i].error == error
      && Concat(replies) == accepted && Silent(replies, i)
  }

  lemma EndsAppend(replies: seq<Reply>, reply: Reply, accepted: seq<string>, result: Option<string>,
                   error: Option<string>, settled: bool)
    requires Ends(replies, accepted, result, error, settled)
    requires Concat(replies) + reply.deltas <= accepted
    requires !reply.status.Running? ==>
               settled && reply.result == result && reply.error == error
               && Concat(replies) + reply.deltas == accepted
    requires settled && Concat(replies) + reply.deltas == accepted ==> !reply.status.Running?
    ensures Concat(replies + [reply]) == Concat(replies) + reply.deltas
    ensures Ends(replies + [reply], accepted, result, error, settled)
  {
    var more := replies + [reply];
    assert more[..|replies|] == replies;
    forall i | 0 <= i < |more| && !more[i].status.Running?
      ensures settled && more[i].result == result && more[i].error == error
      ensures Concat(more) == accepted && Silent(more, i)
    {
      if i < |replies| {
        assert replies[i] == more[i];
        assert |reply.deltas| == 0;
      }
    }
  }

  /** Polling a settled run ends: with everything accepted, and the ending. */
  method DrainAll(job: Job) returns (reply: Reply)
    requires job.Valid() && job.Settled()
    modifies job
    ensures job.Valid() && job.polled == job.accepted == old(job.accepted)
    ensures job.result == old(job.result) && job.error == old(job.error)
    ensures !reply.status.Running? && reply.result == job.result && reply.error == job.error
    ensures reply.status.Failed? <==> job.error.Some?
  {
    reply := job.Poll();
    while reply.status.Running?
      invariant job.Valid() && job.Settled() && job.accepted == old(job.accepted)
      invariant job.result == old(job.result) && job.error == old(job.error)
      invariant reply.status == if job.deltas != [] then Running else if job.error.Some? then Failed else Done
      invariant job.deltas == [] ==> reply.result == job.result && reply.error == job.error
      decreases |job.deltas|
    {
      reply := job.Poll();
    }
  }

  // ----- how many run at once -----

  datatype Start = Started | Revoked | AtCapacity | CleaningUp

  class ChildAgents {
    var jobs: map<string, nat>
    var revoked: set<nat>
    var active: nat
    /** The permits that have not been dropped. */
    ghost var permits: nat

    ghost predicate Valid()
      reads this
    {
      active == permits <= MAX_JOBS && |jobs| <= MAX_JOBS
    }

    constructor ()
      ensures Valid() && jobs == map[] && permits == 0
    {
      jobs, revoked, active, permits := map[], {}, 0, 0;
    }

    /** A finished child drops its permit; any number may while a start holds the lock on the jobs. */
    method DropPermits()
      requires Valid()
      modifies this`active, this`permits
      ensures Valid() && active <= old(active)
    {
      var n: nat :| true;
      for i := 0 to n
        invariant Valid() && active <= old(active)
      {
        if active > 0 {
          active, permits := active - 1, permits - 1;
        }
      }
    }

    /** The capacity loop: compare-and-exchange until it takes, which it may refuse for no reason at all. */
    method Reserve(patience: nat) returns (reserved: Option<bool>)
      requires Valid()
      modifies this`active, this`permits
      ensures Valid()
      ensures reserved == Some(true) ==> 0 < permits <= old(permits) + 1
      ensures reserved == Some(false) ==> old(permits) == MAX_JOBS
      ensures reserved != Some(true) ==> permits <= old(permits)
    {
      var seen := active;
      for i := 0 to patience
        invariant Valid() && active <= seen <= old(active)
      {
        if seen >= MAX_JOBS {
          return Some(false);
        }
        DropPermits();
        var spurious: bool := *;
        if !spurious && active == seen {
          active, permits := active + 1, permits + 1;
          return Some(true);
        }
        seen := active;
      }
      reserved := None;
    }

    /** The checks of `start` under the lock, up to the reserved place; `None` while the exchange keeps failing. */
    method StartChild(id: string, owner: nat, patience: nat) returns (start: Option<Start>)
      requires Valid()
      modifies this
      ensures Valid() && revoked == old(revoked)
      ensures start == Some(Started) ==> jobs == old(jobs)[id := owner] && owner !in revoked && |old(jobs)| < MAX_JOBS
      ensures start == Some(Revoked) <==> owner in revoked
      ensures start == Some(AtCapacity) ==> |old(jobs)| >= MAX_JOBS
      ensures start == Some(CleaningUp) ==> old(permits) == MAX_JOBS
      ensures start != Some(Started) ==> jobs == old(jobs)
    {
      if owner in revoked {
        return Some(Revoked);
      }
      if |jobs| >= MAX_JOBS {
        return Some(AtCapacity);
      }
      var reserved := Reserve(patience);
      if reserved.None? {
        return None;
      }
      if !reserved.value {
        return Some(CleaningUp);
      }
      assert jobs[id := owner].Keys == jobs.Keys + {id};
      jobs := jobs[id := owner];
      start := Some(Started);
    }
  }
}
