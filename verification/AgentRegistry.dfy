/** The registry of subagents in `agent_tool.rs`, and the background agents a history started that never
    reported. */
module AgentRegistry {
  import opened JsonValues

  const MAX_KEPT := 16

  datatype Job = Job(id: string, running: bool, lastUsed: nat)

  // ----- keeping at most sixteen -----

  /** The first of the least recently used finished jobs. */
  method OldestFinished(jobs: seq<Job>) returns (oldest: Option<nat>)
    ensures oldest.None? <==> forall job | job in jobs :: job.running
    ensures oldest.Some? ==> oldest.value < |jobs| && !jobs[oldest.value].running
    ensures oldest.Some? ==>
              forall i | 0 <= i < |jobs| && !jobs[i].running ::
                jobs[oldest.value].lastUsed <= jobs[i].lastUsed
                && (i < oldest.value ==> jobs[oldest.value].lastUsed < jobs[i].lastUsed)
  {
    oldest := None;
    for i := 0 to |jobs|
      invariant oldest.None? <==> forall j | 0 <= j < i :: jobs[j].running
      invariant oldest.Some? ==> oldest.value < i && !jobs[oldest.value].running
      invariant oldest.Some? ==>
                  forall j | 0 <= j < i && !jobs[j].running ::
                    jobs[oldest.value].lastUsed <= jobs[j].lastUsed
                    && (j < oldest.value ==> jobs[oldest.value].lastUsed < jobs[j].lastUsed)
    {
      if !jobs[i].running && (oldest.None? || jobs[i].lastUsed < jobs[oldest.value].lastUsed) {
        oldest := Some(i);
      }
    }
    assert oldest.Some? ==> jobs[oldest.value] in jobs;
  }

  /** What an eviction leaves: nothing lost, nothing running stopped, and nothing younger put out before it. */
  ghost predicate Evicts(before: seq<Job>, jobs: seq<Job>, evicted: seq<Job>) {
    && multiset(before) == multiset(jobs) + multiset(evicted)
    && (forall e | e in evicted :: !e.running)
    && forall e, job | e in evicted && job in jobs && !job.running :: e.lastUsed <= job.lastUsed
  }

  lemma EvictOne(before: seq<Job>, jobs: seq<Job>, evicted: seq<Job>, i: nat)
    requires Evicts(before, jobs, evicted) && i < |jobs| && !jobs[i].running
    requires forall j | 0 <= j < |jobs| && !jobs[j].running :: jobs[i].lastUsed <= jobs[j].lastUsed
    ensures Evicts(before, jobs[..i] + jobs[i + 1..], evicted + [jobs[i]])
  {
    var rest := jobs[..i] + jobs[i + 1..];
    assert jobs == jobs[..i] + [jobs[i]] + jobs[i + 1..];
    assert forall job | job in rest :: job in jobs;
    assert jobs[i] in jobs;
  }

  class Registry {
    var jobs: seq<Job>

    constructor ()
      ensures jobs == []
    {
      jobs := [];
    }

    /** `insert` */
    method Insert(job: Job) returns (evicted: seq<Job>)
      modifies this
      ensures Evicts(old(jobs) + [job], jobs, evicted)
      ensures |jobs| <= MAX_KEPT || forall j | j in jobs :: j.running
      ensures evicted != [] ==> |jobs| >= MAX_KEPT
    {
      jobs, evicted := Trim(jobs + [job]);
    }
  }

  /** The oldest finished jobs go until sixteen are left, or none that is left has finished. */
  method Trim(all: seq<Job>) returns (jobs: seq<Job>, evicted: seq<Job>)
    ensures Evicts(all, jobs, evicted)
    ensures |jobs| <= MAX_KEPT || forall j | j in jobs :: j.running
    ensures evicted != [] ==> |jobs| >= MAX_KEPT
  {
    jobs, evicted := all, [];
    while |jobs| > MAX_KEPT
      invariant Evicts(all, jobs, evicted)
      invariant evicted != [] ==> |jobs| >= MAX_KEPT
      decreases |jobs|
    {
      var oldest := OldestFinished(jobs);
      if oldest.None? {
        break;
      }
      EvictOne(all, jobs, evicted, oldest.value);
      evicted := evicted + [jobs[oldest.value]];
      jobs := jobs[..oldest.value] + jobs[oldest.value + 1..];
    }
  }

  // ----- agents that never reported -----

  const NOTE_TAG := "<background-agent"

  datatype Message =
    | ToolResult(background: bool, status: string, agentId: string, description: string)
    | User(text: string)
    | Other

  predicate StandsAt(text: string, part: string, i: nat) {
    i + |part| <= |text| && text[i..i + |part|] == part
  }

  predicate Contains(text: string, part: string) {
    exists i: nat | i <= |text| :: StandsAt(text, part, i)
  }

  predicate Reports(text: string, id: string) {
    Contains(text, NOTE_TAG + " id=\"" + id + "\"")
  }

  predicate IsQueued(queued: string, id: string) {
    Contains(queued, "id=\\\"" + id + "\\\"") || Contains(queued, "id=\"" + id + "\"")
  }

  /** A call that returned and left its agent running in the background. */
  predicate Starts(m: Message) {
    m.ToolResult? && m.background && m.status == "running" && m.agentId != ""
  }

  /** A message after which an earlier start of the agent no longer counts. */
  predicate Supersedes(m: Message, id: string) {
    (Starts(m) && m.agentId == id) || (m.User? && Reports(m.text, id))
  }

  predicate Unanswered(messages: seq<Message>, i: nat) {
    && i < |messages| && Starts(messages[i])
    && forall j | i < j < |messages| :: !Supersedes(messages[j], messages[i].agentId)
  }

  type Agents = seq<(string, string)>

  /** The agents of the first `n` messages that nothing in the whole history answers, oldest start first. */
  function Lost(messages: seq<Message>, n: nat): Agents
    requires n <= |messages|
  {
    if n == 0 then []
    else
      Lost(messages, n - 1)
      + if Unanswered(messages, n - 1) then [(messages[n - 1].agentId, messages[n - 1].description)] else []
  }

  function Keep(agents: Agents, keep: string -> bool): Agents {
    if agents == [] then []
    else
      var last := agents[|agents| - 1];
      Keep(agents[..|agents| - 1], keep) + if keep(last.0) then [last] else []
  }

  lemma KeepAppend(agents: Agents, agent: (string, string), keep: string -> bool)
    ensures Keep(agents + [agent], keep) == Keep(agents, keep) + if keep(agent.0) then [agent] else []
  {
    assert (agents + [agent])[..|agents|] == agents;
  }

  function NotSuperseded(m: Message): string -> bool {
    (id: string) => !Supersedes(m, id)
  }

  lemma UnansweredLater(messages: seq<Message>, m: Message, i: nat)
    requires i < |messages|
    ensures (messages + [m])[i] == messages[i]
    ensures Unanswered(messages + [m], i) <==> Unanswered(messages, i) && !Supersedes(m, messages[i].agentId)
  {
    var more := messages + [m];
    assert forall j | i < j < |messages| :: more[j] == messages[j];
    assert more[|messages|] == m;
  }

  /** One more message leaves out the agents it supersedes. */
  lemma {:induction false} LostLater(messages: seq<Message>, m: Message, n: nat)
    requires n <= |messages|
    ensures Lost(messages + [m], n) == Keep(Lost(messages, n), NotSuperseded(m))
    decreases n
  {
    if n > 0 {
      var i := n - 1;
      LostLater(messages, m, i);
      UnansweredLater(messages, m, i);
      if Unanswered(messages, i) {
        KeepAppend(Lost(messages, i), (messages[i].agentId, messages[i].description), NotSuperseded(m));
      } else {
        assert Lost(messages, n) == Lost(messages, i);
      }
    }
  }

  lemma {:induction false} KeepSame(agents: Agents, f: string -> bool, g: string -> bool)
    requires forall id :: f(id) == g(id)
    ensures Keep(agents, f) == Keep(agents, g)
  {
    if agents != [] {
      KeepSame(agents[..|agents| - 1], f, g);
    }
  }

  lemma {:induction false} KeepAll(agents: Agents, keep: string -> bool)
    requires forall id :: keep(id)
    ensures Keep(agents, keep) == agents
  {
    if agents != [] {
      KeepAll(agents[..|agents| - 1], keep);
    }
  }

  /** A report carries the tag. */
  lemma ReportsAreTagged(text: string, id: string)
    requires Reports(text, id)
    ensures Contains(text, NOTE_TAG)
  {
    var note := NOTE_TAG + " id=\"" + id + "\"";
    var i: nat :| i <= |text| && StandsAt(text, note, i);
    assert text[i..i + |NOTE_TAG|] == text[i..i + |note|][..|NOTE_TAG|];
    assert StandsAt(text, NOTE_TAG, i);
  }

  /** `Vec::retain` */
  method Retain(agents: Agents, keep: string -> bool) returns (kept: Agents)
    ensures kept == Keep(agents, keep)
  {
    kept := [];
    for i := 0 to |agents|
      invariant kept == Keep(agents[..i], keep)
    {
      KeepAppend(agents[..i], agents[i], keep);
      assert agents[..i + 1] == agents[..i] + [agents[i]];
      if keep(agents[i].0) {
        kept := kept + [agents[i]];
      }
    }
    assert agents[..|agents|] == agents;
  }

  /** `unreported_background_agents`: the agents whose latest start nothing answers and no queued report names. */
  method UnreportedBackgroundAgents(messages: seq<Message>, queued: string) returns (open: Agents)
    ensures open == Keep(Lost(messages, |messages|), id => !IsQueued(queued, id))
  {
    open := [];
    for i := 0 to |messages|
      invariant open == Lost(messages[..i], i)
    {
      var m := messages[i];
      assert messages[..i + 1] == messages[..i] + [m];
      LostLater(messages[..i], m, i);
      if m.ToolResult? && m.background && m.status == "running" && m.agentId != "" {
        KeepSame(open, NotSuperseded(m), id => id != m.agentId);
        open := Retain(open, id => id != m.agentId);
        open := open + [(m.agentId, m.description)];
      } else if m.User? && Contains(m.text, NOTE_TAG) {
        var unreported := (id: string) => !Contains(m.text, NOTE_TAG + " id=\"" + id + "\"");
        KeepSame(open, NotSuperseded(m), unreported);
        open := Retain(open, unreported);
      } else {
        forall id ensures NotSuperseded(m)(id) {
          if m.User? && Reports(m.text, id) {
            ReportsAreTagged(m.text, id);
          }
        }
        KeepAll(open, NotSuperseded(m));
      }
    }
    assert messages[..|messages|] == messages;
    var unqueued :=
      (id: string) => !Contains(queued, "id=\\\"" + id + "\\\"") && !Contains(queued, "id=\"" + id + "\"");
    KeepSame(open, id => !IsQueued(queued, id), unqueued);
    open := Retain(open, unqueued);
  }

  /** An agent is listed exactly when one of its starts is unanswered, and then only that start is: no agent is
      listed twice. */
  lemma {:induction false} LostMembers(messages: seq<Message>, n: nat)
    requires n <= |messages|
    ensures forall agent :: agent in Lost(messages, n) <==>
              exists i | 0 <= i < n ::
                Unanswered(messages, i) && agent == (messages[i].agentId, messages[i].description)
    ensures forall i, j | 0 <= i < j < |Lost(messages, n)| :: Lost(messages, n)[i].0 != Lost(messages, n)[j].0
  {
    if n > 0 {
      LostMembers(messages, n - 1);
      if Unanswered(messages, n - 1) {
        var before := Lost(messages, n - 1);
        forall k | 0 <= k < |before| ensures before[k].0 != messages[n - 1].agentId {
          assert before[k] in before;
          var i :| 0 <= i < n - 1 && Unanswered(messages, i)
                   && before[k] == (messages[i].agentId, messages[i].description);
          assert !Supersedes(messages[n - 1], messages[i].agentId);
        }
      }
    }
  }

  // ----- reporting what was lost -----

  /** `lost_agent_note`: a report about an agent; `rest` is what follows its name. */
  function LostNote(agent: (string, string), rest: string -> string): string {
    "<background-agent id=\"" + agent.0 + "\"" + rest(agent.1)
  }

  function LostNotes(agents: Agents, rest: string -> string): seq<string> {
    seq(|agents|, i requires 0 <= i < |agents| => LostNote(agents[i], rest))
  }

  /** `join("\n\n")` */
  function Join(notes: seq<string>): string {
    if notes == [] then ""
    else if |notes| == 1 then notes[0]
    else notes[0] + "\n\n" + Join(notes[1..])
  }

  /** What holds a text as a part of it. */
  lemma ContainsPart(before: string, part: string, after: string)
    ensures Contains(before + part + after, part)
  {
    assert StandsAt(before + part + after, part, |before|);
  }

  lemma ContainsWithin(before: string, text: string, after: string, part: string)
    requires Contains(text, part)
    ensures Contains(before + text + after, part)
  {
    var i: nat :| i <= |text| && StandsAt(text, part, i);
    var whole := before + text + after;
    assert whole[|before| + i..|before| + i + |part|] == text[i..i + |part|];
    assert StandsAt(whole, part, |before| + i);
  }

  lemma {:induction false} JoinContains(notes: seq<string>, n: nat, part: string)
    requires n < |notes| && Contains(notes[n], part)
    ensures Contains(Join(notes), part)
  {
    if |notes| > 1 {
      if n == 0 {
        ContainsWithin("", notes[0], "\n\n" + Join(notes[1..]), part);
        assert "" + notes[0] + ("\n\n" + Join(notes[1..])) == Join(notes);
      } else {
        JoinContains(notes[1..], n - 1, part);
        ContainsWithin(notes[0] + "\n\n", Join(notes[1..]), "", part);
        assert notes[0] + "\n\n" + Join(notes[1..]) + "" == Join(notes);
      }
    }
  }

  /** A report that waits in the queue is seen there, as text or within a JSON string. */
  lemma QueuedNoteIsSeen(id: string, before: string, rest: string)
    ensures IsQueued(before + ("id=\"" + id + "\"") + rest, id)
    ensures IsQueued(before + ("id=\\\"" + id + "\\\"") + rest, id)
  {
    ContainsPart(before, "id=\"" + id + "\"", rest);
    ContainsPart(before, "id=\\\"" + id + "\\\"", rest);
  }

  lemma {:induction false} KeepNone(agents: Agents, keep: string -> bool)
    requires forall agent | agent in agents :: !keep(agent.0)
    ensures Keep(agents, keep) == []
  {
    if agents != [] {
      assert agents == agents[..|agents| - 1] + [agents[|agents| - 1]];
      KeepNone(agents[..|agents| - 1], keep);
    }
  }

  lemma NotesReport(agents: Agents, rest: string -> string, n: nat)
    requires n < |agents|
    ensures Reports(Join(LostNotes(agents, rest)), agents[n].0)
  {
    var name := NOTE_TAG + " id=\"" + agents[n].0 + "\"";
    ContainsPart("", name, rest(agents[n].1));
    assert "" + name + rest(agents[n].1) == LostNotes(agents, rest)[n];
    JoinContains(LostNotes(agents, rest), n, name);
  }

  /** Once the one message that reports every listed agent lost has been read, none is listed any more; nor is any while
      the message waits in the queue, as `QueuedNoteIsSeen` says: recovery reports each agent once. */
  lemma RecoveryIsComplete(messages: seq<Message>, rest: string -> string)
    ensures
      var all := messages + [User(Join(LostNotes(Lost(messages, |messages|), rest)))];
      Lost(all, |all|) == []
  {
    var lost := Lost(messages, |messages|);
    var report := User(Join(LostNotes(lost, rest)));
    LostLater(messages, report, |messages|);
    forall agent | agent in lost ensures Supersedes(report, agent.0) {
      var n :| 0 <= n < |lost| && lost[n] == agent;
      NotesReport(lost, rest, n);
    }
    KeepNone(lost, NotSuperseded(report));
  }
}
