/** What the requests of a run were made with: each carries the full conversion of the transcript at its turn. */
module RequestLog {
  import opened AgentEvents
  import opened JsonValues
  import opened ProviderCache

  type Transcript = seq<AgentMessage>

  /** Why the transcript starts over from a known one: at the start of the run, because a hook replaced it, or
      because a stream that started more than once left `stray` partial messages in it. */
  datatype Why = Initially | Replaced | Restarted(stray: Transcript)

  /** From here on the transcript is `base` and the new messages from number `from`; `asked` requests were made
      before. */
  datatype Anchor = Anchor(base: Transcript, from: nat, asked: nat, why: Why)

  /** What a provider was sent, the context it was sent for, and how many new messages there were. */
  datatype Request = Request(sent: seq<Message>, context: Transcript, at: nat)

  datatype Log = Log(requests: seq<Request>, anchors: seq<Anchor>)

  function NewLog(context: Transcript, messages: Transcript): Log {
    Log([], [Anchor(context, |messages|, 0, Initially)])
  }

  function Seen(a: Anchor, messages: Transcript, at: nat): Transcript
    requires a.from <= at <= |messages|
  {
    a.base + messages[a.from..at]
  }

  /** Anchors come in the order of requests and messages, and a restart goes on from the one before. */
  predicate Ordered(anchors: seq<Anchor>, asked: nat, messages: Transcript, n: nat)
    requires n <= |messages|
    decreases |anchors|
  {
    && anchors != []
    && var a := anchors[|anchors| - 1];
    && a.asked <= asked && a.from <= n
    && if |anchors| == 1 then a.why.Initially? && a.asked == 0
       else
         && Ordered(anchors[..|anchors| - 1], a.asked, messages, a.from)
         && !a.why.Initially?
         && (a.why.Restarted? ==> a.base == Seen(anchors[|anchors| - 2], messages, a.from) + a.why.stray)
  }

  /** The anchor that held when request `i` was made. */
  function AnchorOf(anchors: seq<Anchor>, i: nat): Anchor
    requires anchors != []
    decreases |anchors|
  {
    var a := anchors[|anchors| - 1];
    if a.asked <= i || |anchors| == 1 then a else AnchorOf(anchors[..|anchors| - 1], i)
  }

  /** A request was made for the transcript of its turn, and carried its full conversion. */
  predicate MadeFor(q: Request, a: Anchor, messages: Transcript, config: Config) {
    && q.sent == config.Full(q.context)
    && a.from <= q.at <= |messages|
    && q.context == Seen(a, messages, q.at)
  }

  predicate AllMadeFor(requests: seq<Request>, anchors: seq<Anchor>, messages: Transcript, config: Config)
    requires anchors != []
  {
    requests == [] ||
    (&& AllMadeFor(requests[..|requests| - 1], anchors, messages, config)
     && MadeFor(requests[|requests| - 1], AnchorOf(anchors, |requests| - 1), messages, config))
  }

  predicate Logged(log: Log, context: Transcript, messages: Transcript, config: Config) {
    && Ordered(log.anchors, |log.requests|, messages, |messages|)
    && context == Seen(log.anchors[|log.anchors| - 1], messages, |messages|)
    && AllMadeFor(log.requests, log.anchors, messages, config)
  }

  // ----- what a run does to its log -----

  lemma NewLogIsLogged(context: Transcript, messages: Transcript, config: Config)
    ensures Logged(NewLog(context, messages), context, messages, config)
  {
    assert context + messages[|messages|..] == context;
  }

  lemma SeenMore(a: Anchor, messages: Transcript, more: Transcript, at: nat)
    requires a.from <= at <= |messages|
    ensures Seen(a, messages + more, at) == Seen(a, messages, at)
  {
    assert (messages + more)[a.from..at] == messages[a.from..at];
  }

  lemma {:induction false} OrderedMore(anchors: seq<Anchor>, asked: nat, messages: Transcript, more: Transcript, n: nat)
    requires n <= |messages| && Ordered(anchors, asked, messages, n)
    ensures Ordered(anchors, asked, messages + more, n)
    decreases |anchors|
  {
    if |anchors| > 1 {
      var a := anchors[|anchors| - 1];
      OrderedMore(anchors[..|anchors| - 1], a.asked, messages, more, a.from);
      SeenMore(anchors[|anchors| - 2], messages, more, a.from);
    }
  }

  lemma {:induction false} OrderedLater(anchors: seq<Anchor>, asked: nat, messages: Transcript, n: nat, later: nat,
                                        end: nat)
    requires n <= end <= |messages| && Ordered(anchors, asked, messages, n) && asked <= later
    ensures Ordered(anchors, later, messages, end)
  {
  }

  lemma {:induction false} AllMadeForMore(requests: seq<Request>, anchors: seq<Anchor>, messages: Transcript,
                                          more: Transcript, config: Config)
    requires anchors != [] && AllMadeFor(requests, anchors, messages, config)
    ensures AllMadeFor(requests, anchors, messages + more, config)
  {
    if requests != [] {
      AllMadeForMore(requests[..|requests| - 1], anchors, messages, more, config);
      SeenMore(AnchorOf(anchors, |requests| - 1), messages, more, requests[|requests| - 1].at);
    }
  }

  lemma {:induction false} AllMadeForAnchor(requests: seq<Request>, anchors: seq<Anchor>, a: Anchor,
                                            messages: Transcript, config: Config)
    requires anchors != [] && AllMadeFor(requests, anchors, messages, config) && |requests| <= a.asked
    ensures AllMadeFor(requests, anchors + [a], messages, config)
  {
    if requests != [] {
      AllMadeForAnchor(requests[..|requests| - 1], anchors, a, messages, config);
      assert (anchors + [a])[..|anchors|] == anchors;
    }
  }

  /** Messages that join the transcript and the new messages. */
  lemma LoggedMore(log: Log, context: Transcript, messages: Transcript, more: Transcript, config: Config)
    requires Logged(log, context, messages, config)
    ensures Logged(log, context + more, messages + more, config)
  {
    var a := log.anchors[|log.anchors| - 1];
    OrderedMore(log.anchors, |log.requests|, messages, more, |messages|);
    OrderedLater(log.anchors, |log.requests|, messages + more, |messages|, |log.requests|, |messages + more|);
    AllMadeForMore(log.requests, log.anchors, messages, more, config);
    assert (messages + more)[a.from..] == messages[a.from..] + more;
  }

  /** A request made for the transcript as it is. */
  lemma LoggedAsk(log: Log, context: Transcript, messages: Transcript, config: Config)
    requires Logged(log, context, messages, config)
    ensures Logged(log.(requests := log.requests + [Request(config.Full(context), context, |messages|)]),
                   context, messages, config)
  {
    var requests := log.requests + [Request(config.Full(context), context, |messages|)];
    OrderedLater(log.anchors, |log.requests|, messages, |messages|, |requests|, |messages|);
    assert requests[..|requests| - 1] == log.requests;
  }

  /** A transcript that a hook put in place of the old one. */
  lemma LoggedReplace(log: Log, context: Transcript, messages: Transcript, base: Transcript, config: Config)
    requires Logged(log, context, messages, config)
    ensures Logged(log.(anchors := log.anchors + [Anchor(base, |messages|, |log.requests|, Replaced)]),
                   base, messages, config)
  {
    var a := Anchor(base, |messages|, |log.requests|, Replaced);
    LoggedAnchor(log, a, messages, config);
    assert base + messages[|messages|..] == base;
  }

  /** A transcript with stray messages. */
  lemma LoggedRestart(log: Log, context: Transcript, messages: Transcript, stray: Transcript, config: Config)
    requires Logged(log, context, messages, config)
    ensures var a := Anchor(context + stray, |messages|, |log.requests|, Restarted(stray));
            Logged(log.(anchors := log.anchors + [a]), context + stray, messages, config)
  {
    var a := Anchor(context + stray, |messages|, |log.requests|, Restarted(stray));
    LoggedAnchor(log, a, messages, config);
    assert context + stray + messages[|messages|..] == context + stray;
  }

  lemma LoggedAnchor(log: Log, a: Anchor, messages: Transcript, config: Config)
    requires Ordered(log.anchors, |log.requests|, messages, |messages|)
    requires AllMadeFor(log.requests, log.anchors, messages, config)
    requires a.from == |messages| && a.asked == |log.requests| && !a.why.Initially?
    requires a.why.Restarted? ==>
               a.base == Seen(log.anchors[|log.anchors| - 1], messages, |messages|) + a.why.stray
    ensures Ordered(log.anchors + [a], |log.requests|, messages, |messages|)
    ensures AllMadeFor(log.requests, log.anchors + [a], messages, config)
  {
    assert (log.anchors + [a])[..|log.anchors|] == log.anchors;
    AllMadeForAnchor(log.requests, log.anchors, a, messages, config);
  }

  lemma {:induction false} RequestMadeFor(requests: seq<Request>, anchors: seq<Anchor>, messages: Transcript,
                                          config: Config, i: nat)
    requires anchors != [] && AllMadeFor(requests, anchors, messages, config) && i < |requests|
    ensures MadeFor(requests[i], AnchorOf(anchors, i), messages, config)
  {
    if i < |requests| - 1 {
      RequestMadeFor(requests[..|requests| - 1], anchors, messages, config, i);
    }
  }

  // ----- when requests were made -----

  function Ats(requests: seq<Request>): seq<int> {
    if requests == [] then [] else Ats(requests[..|requests| - 1]) + [requests[|requests| - 1].at]
  }

  /** What a trace says of its turns: for each that ended, how many messages had ended before its assistant message; the
      last one's message and results; and how many messages had ended when the last turn started. */
  datatype Mark = Mark(points: seq<int>, turn: Option<AgentMessage>, results: seq<ResultMessage>, began: nat)

  function MarkOf(trace: seq<Event>): Mark {
    if trace == [] then Mark([], None, [], 0)
    else
      var rest, last := trace[..|trace| - 1], trace[|trace| - 1];
      var m := MarkOf(rest);
      match last
      case TurnStart => m.(began := |Ended(rest)|)
      case TurnEnd(turn, results) => Mark(m.points + [|Ended(rest)| - |results| - 1], Some(turn), results, m.began)
      case _ => m
  }

  function Points(trace: seq<Event>): seq<int> {
    MarkOf(trace).points
  }

  /** The same for the turns that made a request: all but the first of a run that was handed its message. */
  function AskingPoints(trace: seq<Event>, given: Option<AssistantMessage>): seq<int> {
    var points := Points(trace);
    if given.Some? && points != [] then points[1..] else points
  }

  lemma {:induction false} MarkInner(trace: seq<Event>, more: seq<Event>)
    requires forall e | e in more :: !e.TurnEnd? && !e.TurnStart?
    ensures MarkOf(trace + more) == MarkOf(trace)
    decreases |more|
  {
    if more == [] {
      assert trace + more == trace;
    } else {
      assert (trace + more)[..|trace + more| - 1] == trace + more[..|more| - 1];
      assert more[|more| - 1] in more && forall e | e in more[..|more| - 1] :: e in more;
      MarkInner(trace, more[..|more| - 1]);
    }
  }

  lemma MarkTurnStart(trace: seq<Event>)
    ensures MarkOf(trace + [TurnStart]) == MarkOf(trace).(began := |Ended(trace)|)
  {
    assert (trace + [TurnStart])[..|trace|] == trace;
  }

  lemma MarkTurnEnd(trace: seq<Event>, turn: AgentMessage, results: seq<ResultMessage>)
    ensures var m := MarkOf(trace);
            MarkOf(trace + [TurnEnd(turn, results)])
            == Mark(m.points + [|Ended(trace)| - |results| - 1], Some(turn), results, m.began)
  {
    var event := TurnEnd(turn, results);
    var longer := trace + [event];
    assert longer != [] && longer[..|longer| - 1] == trace && longer[|longer| - 1] == event;
  }

  lemma AtsAppend(requests: seq<Request>, q: Request)
    ensures Ats(requests + [q]) == Ats(requests) + [q.at]
  {
    assert (requests + [q])[..|requests|] == requests;
  }
}
