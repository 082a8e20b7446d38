/** The bounded event stream of `event_stream.rs`: one producer, one consumer, a queue with a count limit and a
    byte budget, a terminal and a result outside the queue, and cancellation. Every step between two await
    points is atomic. */
module EventStream {
  import opened JsonValues

  datatype StopReason = Stopped | Failed | Aborted

  /** `source` is what an empty message copies (api, provider, model, timestamp); `meta` is the other metadata. */
  datatype Message = Message(content: seq<string>, source: string, meta: string, stopReason: StopReason,
                             error: Option<string>)

  datatype Event =
    | Ordinary(partial: Message, bytes: nat)
    | Done(message: Message)
    | Error(aborted: bool, failure: Message)
  {
    predicate Terminal() {
      !Ordinary?
    }

    /** The message an event carries. */
    function Carried(): Message {
      match this
      case Ordinary(partial, _) => partial
      case Done(message) => message
      case Error(_, failure) => failure
    }
  }

  /** A one-value channel. */
  datatype Slot<T> = Open | Sent(value: T) | Taken(value: T) | Closed
  {
    predicate Published() {
      Sent? || Taken?
    }
  }

  /** Where the producer is between two awaits. */
  datatype Phase = Idle | Waiting(event: Event) | Holding(event: Event)
                 | Resulting | Sending | Closing | Dropping | Dropped

  datatype Consumer = Listening | Finished | Draining | Gone

  /** `accepted` are the queued events of the whole run, `received` what `next` or `result` took, and `chosen`
      the terminal that won, with `aborted` when cancellation had been seen. */
  datatype State = State(
    capacity: nat, budget: nat,
    queue: seq<Event>, free: nat, held: nat, fifoOpen: bool,
    phase: Phase, committed: Option<Message>, done: bool, chosen: Option<Event>, aborted: bool,
    terminal: Slot<Event>, result: Slot<Message>,
    cancelled: bool, consumer: Consumer,
    accepted: seq<Event>, received: seq<Event>)
  {
    predicate Blocked() {
      (phase.Waiting? && free < Weight(phase.event, budget)) || (phase.Holding? && |queue| >= capacity)
    }
  }

  datatype ProducerStep =
    | Begin(event: Event) | Refuse | Abandon | Acquire | Accept
    | SendResult | SendTerminal | CloseFifo
    | Commit(message: Message)
    | DropProducer | CloseTerminal | CloseResult

  datatype ConsumerStep = Receive | TakeTerminal | EndBare | StartResult | TakeResult | ResultError | DropConsumer

  datatype Step = Produce(p: ProducerStep) | Consume(c: ConsumerStep) | Cancel

  function Start(capacity: nat, budget: nat): State {
    State(capacity, budget, [], budget, 0, true, Idle, None, false, None, false, Open, Open, false, Listening, [], [])
  }

  /** At least one, and never more than the whole budget: an oversized event takes all of it. */
  function Weight(event: Event, budget: nat): nat {
    var bytes := if event.Ordinary? && event.bytes > 1 then event.bytes else 1;
    if bytes < budget then bytes else budget
  }

  function Weights(queue: seq<Event>, budget: nat): nat {
    if queue == [] then 0 else Weight(queue[0], budget) + Weights(queue[1..], budget)
  }

  // ----- the steps -----

  predicate SameMetadata(a: Message, b: Message) {
    a.source == b.source && a.meta == b.meta && a.stopReason == b.stopReason && a.error == b.error
  }

  /** `commit_metadata`: everything but the content. */
  function Committed(committed: Option<Message>, message: Message): Message {
    if committed.Some? && SameMetadata(committed.value, message) then committed.value
    else message.(content := if committed.Some? then committed.value.content else [])
  }

  /** The terminal that takes the place of `event` once cancellation has been seen. */
  function AbortedTerminal(committed: Option<Message>, event: Event): Event {
    var base := if committed.Some? then committed.value else Message([], event.Carried().source, "", Stopped, None);
    var why := if event.Error? && event.aborted && event.failure.error.Some? then event.failure.error.value
               else "Request aborted";
    Error(true, base.(stopReason := Aborted, error := Some(why)))
  }

  predicate CanProduce(s: State, step: ProducerStep) {
    match step
    case Begin(_) => s.phase.Idle?
    case Refuse => (s.phase.Waiting? || s.phase.Holding?) && s.cancelled
    case Abandon => s.phase.Waiting? || s.phase.Holding?
    case Acquire => s.phase.Waiting? && !s.cancelled && s.free >= Weight(s.phase.event, s.budget)
    case Accept => s.phase.Holding? && !s.cancelled && |s.queue| < s.capacity
    case SendResult => s.phase.Resulting? && s.chosen.Some?
    case SendTerminal => s.phase.Sending? && s.chosen.Some?
    case CloseFifo => s.phase.Closing?
    case Commit(_) => s.phase.Idle?
    case DropProducer => s.phase.Idle?
    case CloseTerminal => s.phase.Dropping?
    case CloseResult => s.phase.Dropped? && s.result.Open?
  }

  predicate CanConsume(s: State, step: ConsumerStep) {
    match step
    case Receive => (s.consumer.Listening? || s.consumer.Draining?) && s.queue != []
    case TakeTerminal => s.consumer.Listening? && s.queue == [] && !s.fifoOpen && s.terminal.Sent?
    case EndBare => s.consumer.Listening? && s.queue == [] && !s.fifoOpen && s.terminal.Closed?
    case StartResult => s.consumer.Listening? || s.consumer.Finished?
    case TakeResult => s.consumer.Draining? && s.result.Sent?
    case ResultError => s.consumer.Draining? && s.result.Closed?
    case DropConsumer => s.consumer.Listening? || s.consumer.Finished?
  }

  predicate Enabled(s: State, step: Step) {
    match step
    case Produce(p) => CanProduce(s, p)
    case Consume(c) => CanConsume(s, c)
    case Cancel => true
  }

  /** The consumer's end goes away: cancellation first, then the queue and what its events weighed. */
  function Leave(s: State): State {
    s.(consumer := Gone, cancelled := true, queue := [], free := s.free + Weights(s.queue, s.budget))
  }

  function BeginPush(s: State, event: Event): State {
    if s.done then s
    else if !event.Terminal() then s.(phase := Waiting(event))
    else
      var chosen := if s.cancelled then AbortedTerminal(s.committed, event) else event;
      s.(done := true, phase := Resulting, chosen := Some(chosen), aborted := s.cancelled)
  }

  function AfterProduce(s: State, step: ProducerStep): State
    requires CanProduce(s, step)
  {
    match step
    case Begin(event) => BeginPush(s, event)
    case Refuse => s.(phase := Idle, free := s.free + s.held, held := 0)
    case Abandon => s.(phase := Idle, free := s.free + s.held, held := 0)
    case Acquire =>
      var w := Weight(s.phase.event, s.budget);
      s.(phase := Holding(s.phase.event), free := s.free - w, held := w)
    case Accept =>
      s.(phase := Idle, queue := s.queue + [s.phase.event], held := 0,
         committed := Some(s.phase.event.Carried()), accepted := s.accepted + [s.phase.event])
    case SendResult => s.(phase := Sending, result := Sent(s.chosen.value.Carried()))
    case SendTerminal => s.(phase := Closing, terminal := Sent(s.chosen.value))
    case CloseFifo => s.(phase := Idle, fifoOpen := false)
    case Commit(message) => if s.cancelled then s else s.(committed := Some(Committed(s.committed, message)))
    case DropProducer => s.(phase := Dropping, fifoOpen := false)
    case CloseTerminal => s.(phase := Dropped, terminal := if s.terminal.Open? then Closed else s.terminal)
    case CloseResult => s.(result := Closed)
  }

  function AfterConsume(s: State, step: ConsumerStep): State
    requires CanConsume(s, step)
  {
    match step
    case Receive =>
      s.(queue := s.queue[1..], free := s.free + Weight(s.queue[0], s.budget), received := s.received + [s.queue[0]])
    case TakeTerminal =>
      s.(consumer := Finished, terminal := Taken(s.terminal.value), received := s.received + [s.terminal.value])
    case EndBare => s.(consumer := Finished)
    case StartResult => s.(consumer := Draining)
    case TakeResult => Leave(s.(result := Taken(s.result.value)))
    case ResultError => Leave(s)
    case DropConsumer => Leave(s)
  }

  function Apply(s: State, step: Step): State
    requires Enabled(s, step)
  {
    match step
    case Produce(p) => AfterProduce(s, p)
    case Consume(c) => AfterConsume(s, c)
    case Cancel => s.(cancelled := true)
  }

  // ----- what every step keeps -----

  /** The queue stays within its count, and every permit of the budget is free, held or in the queue. */
  predicate Bounded(s: State) {
    && |s.queue| <= s.capacity
    && Weights(s.queue, s.budget) + s.held + s.free == s.budget
    && s.held == if s.phase.Holding? then Weight(s.phase.event, s.budget) else 0
  }

  predicate PhaseFits(s: State) {
    match s.phase
    case Idle => s.fifoOpen == !s.done
    case Waiting(event) => s.fifoOpen && !s.done && !event.Terminal()
    case Holding(event) => s.fifoOpen && !s.done && !event.Terminal()
    case Resulting => s.fifoOpen && s.done
    case Sending => s.fifoOpen && s.done
    case Closing => s.fifoOpen && s.done
    case Dropping => !s.fifoOpen
    case Dropped => !s.fifoOpen
  }

  /** The consumer has a prefix of what was accepted, the queue holds the rest, and a terminal comes last. */
  predicate Ordered(s: State) {
    && (s.terminal.Taken? ==> !s.consumer.Listening? && !s.fifoOpen && s.received == s.accepted + [s.terminal.value])
    && (!s.terminal.Taken? ==> s.received <= s.accepted)
    && (!s.terminal.Taken? && !s.consumer.Gone? ==> s.received + s.queue == s.accepted)
    && (s.terminal.Taken? || s.consumer.Gone? ==> s.queue == [])
  }

  /** Both slots are filled from the one terminal that won. */
  predicate SlotsAgree(s: State) {
    && (s.chosen.Some? <==> s.done)
    && (s.terminal.Published() ==> s.chosen == Some(s.terminal.value) && s.result.Published())
    && (s.result.Published() ==> s.chosen.Some? && s.result.value == s.chosen.value.Carried())
    && (s.result.Published() ==> !s.phase.Resulting?)
    && (s.terminal.Published() ==> !s.phase.Resulting? && !s.phase.Sending?)
    && (s.done && !s.phase.Resulting? ==> s.result.Published())
    && (s.result.Taken? ==> s.consumer.Gone?)
    && (s.phase.Closing? || (s.done && !s.fifoOpen) ==> s.terminal.Published())
    && (s.terminal.Closed? <==> s.phase.Dropped? && !s.done)
    && (s.result.Closed? ==> s.phase.Dropped? && !s.done)
  }

  function LastContent(accepted: seq<Event>): seq<string> {
    if accepted == [] then [] else accepted[|accepted| - 1].Carried().content
  }

  /** What is committed has the content of the last queued event, and so has a terminal pushed once cancelled. */
  predicate ContentQueued(s: State) {
    && (s.committed.Some? ==> s.committed.value.content == LastContent(s.accepted))
    && (s.committed.None? ==> s.accepted == [])
    && (s.aborted ==>
        && s.chosen.Some? && s.chosen.value.Error? && s.chosen.value.aborted
        && s.chosen.value.failure.stopReason == Aborted
        && s.chosen.value.failure.content == LastContent(s.accepted))
  }

  /** Only ordinary events are queued, and only a terminal is chosen. */
  predicate Kinds(s: State) {
    && (forall e | e in s.queue :: !e.Terminal())
    && (s.chosen.Some? ==> s.chosen.value.Terminal())
  }

  predicate Inv(s: State) {
    && s.capacity > 0 && s.budget > 0
    && (s.consumer.Gone? ==> s.cancelled)
    && PhaseFits(s) && Bounded(s) && Ordered(s) && SlotsAgree(s) && ContentQueued(s) && Kinds(s)
  }

  lemma {:induction false} WeightsAppend(queue: seq<Event>, event: Event, budget: nat)
    ensures Weights(queue + [event], budget) == Weights(queue, budget) + Weight(event, budget)
  {
    if queue == [] {
      assert queue + [event] == [event];
    } else {
      assert (queue + [event])[1..] == queue[1..] + [event];
      WeightsAppend(queue[1..], event, budget);
    }
  }

  lemma ProduceKeepsBounded(s: State, step: ProducerStep)
    requires CanProduce(s, step) && Bounded(s)
    ensures Bounded(AfterProduce(s, step))
  {
    if step.Accept? {
      WeightsAppend(s.queue, s.phase.event, s.budget);
    }
  }

  lemma ProduceKeepsPhase(s: State, step: ProducerStep)
    requires CanProduce(s, step) && PhaseFits(s)
    ensures PhaseFits(AfterProduce(s, step))
  {
  }

  lemma ProduceKeepsOrdered(s: State, step: ProducerStep)
    requires CanProduce(s, step) && PhaseFits(s) && Ordered(s) && SlotsAgree(s) && (s.consumer.Gone? ==> s.cancelled)
    ensures Ordered(AfterProduce(s, step))
  {
    if step.Accept? {
      assert s.received + (s.queue + [s.phase.event]) == (s.received + s.queue) + [s.phase.event];
    }
  }

  lemma ProduceKeepsSlots(s: State, step: ProducerStep)
    requires CanProduce(s, step) && PhaseFits(s) && SlotsAgree(s)
    ensures SlotsAgree(AfterProduce(s, step))
  {
  }

  lemma ProduceKeepsKinds(s: State, step: ProducerStep)
    requires CanProduce(s, step) && PhaseFits(s) && Kinds(s)
    ensures Kinds(AfterProduce(s, step))
  {
  }

  lemma ProduceKeepsContent(s: State, step: ProducerStep)
    requires CanProduce(s, step) && PhaseFits(s) && SlotsAgree(s) && ContentQueued(s)
    ensures ContentQueued(AfterProduce(s, step))
  {
  }

  lemma ConsumeKeepsOrdered(s: State, step: ConsumerStep)
    requires CanConsume(s, step) && PhaseFits(s) && Ordered(s)
    ensures Ordered(AfterConsume(s, step))
  {
    if step.Receive? {
      assert s.queue == [s.queue[0]] + s.queue[1..];
    }
  }

  lemma ConsumeKeepsRest(s: State, step: ConsumerStep)
    requires CanConsume(s, step) && PhaseFits(s) && Bounded(s) && SlotsAgree(s) && ContentQueued(s) && Kinds(s)
    ensures
      var t := AfterConsume(s, step);
      PhaseFits(t) && Bounded(t) && SlotsAgree(t) && ContentQueued(t) && Kinds(t)
  {
  }

  lemma ProduceKeeps(s: State, step: ProducerStep)
    requires CanProduce(s, step) && Inv(s)
    ensures Inv(AfterProduce(s, step))
  {
    ProduceKeepsBounded(s, step);
    ProduceKeepsPhase(s, step);
    ProduceKeepsOrdered(s, step);
    ProduceKeepsSlots(s, step);
    ProduceKeepsContent(s, step);
    ProduceKeepsKinds(s, step);
  }

  lemma ConsumeKeeps(s: State, step: ConsumerStep)
    requires CanConsume(s, step) && Inv(s)
    ensures Inv(AfterConsume(s, step))
  {
    ConsumeKeepsOrdered(s, step);
    ConsumeKeepsRest(s, step);
  }

  lemma Keeps(s: State, step: Step)
    requires Enabled(s, step) && Inv(s)
    ensures Inv(Apply(s, step))
  {
    match step
    case Produce(p) => ProduceKeeps(s, p);
    case Consume(c) => ConsumeKeeps(s, c);
    case Cancel =>
  }

  // ----- whole runs -----

  predicate Legal(s: State, steps: seq<Step>)
    decreases |steps|
  {
    steps == [] || (Enabled(s, steps[0]) && Legal(Apply(s, steps[0]), steps[1..]))
  }

  function After(s: State, steps: seq<Step>): State
    requires Legal(s, steps)
    decreases |steps|
  {
    if steps == [] then s else After(Apply(s, steps[0]), steps[1..])
  }

  lemma {:induction false} RunKeeps(s: State, steps: seq<Step>)
    requires Inv(s) && Legal(s, steps)
    ensures Inv(After(s, steps))
    decreases |steps|
  {
    if steps != [] {
      Keeps(s, steps[0]);
      RunKeeps(Apply(s, steps[0]), steps[1..]);
    }
  }

  // ----- the budget in bytes -----

  /** The payload of an ordinary event, and at least one byte. */
  function Size(event: Event): nat {
    if event.Ordinary? && event.bytes > 0 then event.bytes else 1
  }

  function Bytes(events: seq<Event>): nat {
    if events == [] then 0
    else (if events[0].Ordinary? then events[0].bytes else 0) + Bytes(events[1..])
  }

  function Sizes(events: seq<Event>): nat {
    if events == [] then 0 else Size(events[0]) + Sizes(events[1..])
  }

  /** The queued events, and the one that holds permits while it waits for room. */
  function Charged(s: State): seq<Event> {
    s.queue + if s.phase.Holding? then [s.phase.event] else []
  }

  lemma {:induction false} WeightsAreSizes(events: seq<Event>, budget: nat)
    requires budget > 0
    ensures |events| <= Weights(events, budget) && Bytes(events) <= Sizes(events)
    ensures (forall e | e in events :: Size(e) <= budget) ==> Weights(events, budget) == Sizes(events)
    ensures (exists e | e in events :: Size(e) > budget) ==> budget + |events| - 1 <= Weights(events, budget)
    ensures forall e | e in events :: Size(e) <= Sizes(events)
  {
    if events != [] {
      WeightsAreSizes(events[1..], budget);
      assert forall e | e in events :: e == events[0] || e in events[1..];
      assert events[0] in events && forall e | e in events[1..] :: e in events;
    }
  }

  lemma ChargedWeights(s: State)
    requires Inv(s)
    ensures Weights(Charged(s), s.budget) + s.free == s.budget
  {
    if s.phase.Holding? {
      WeightsAppend(s.queue, s.phase.event, s.budget);
    } else {
      assert Charged(s) == s.queue;
    }
  }

  predicate OversizedAlone(events: seq<Event>, budget: nat) {
    |events| == 1 && events[0].Ordinary? && events[0].bytes > budget
  }

  /** What is queued or holds permits never has more payload bytes than the budget, unless it is one event alone. */
  lemma WithinBudget(s: State)
    requires Inv(s)
    ensures Bytes(Charged(s)) <= s.budget || OversizedAlone(Charged(s), s.budget)
  {
    var events := Charged(s);
    ChargedWeights(s);
    WeightsAreSizes(events, s.budget);
    if exists e | e in events :: Size(e) > s.budget {
      var e :| e in events && Size(e) > s.budget;
      assert |events| == 1 && e == events[0];
    }
  }

  lemma {:induction false} RunKeepsLimits(s: State, steps: seq<Step>)
    requires Legal(s, steps)
    ensures After(s, steps).budget == s.budget && After(s, steps).capacity == s.capacity
    decreases |steps|
  {
    if steps != [] {
      RunKeepsLimits(Apply(s, steps[0]), steps[1..]);
    }
  }

  /** Every run: the consumer has received a prefix of the accepted pushes, or all of them and then the first terminal;
      the queue is within both limits; and the event and the result agree. */
  lemma RunDelivers(capacity: nat, budget: nat, steps: seq<Step>)
    requires capacity > 0 && budget > 0 && Legal(Start(capacity, budget), steps)
    ensures
      var t := After(Start(capacity, budget), steps);
      && Inv(t)
      && (t.received <= t.accepted || (t.chosen.Some? && t.received == t.accepted + [t.chosen.value]))
      && (t.terminal.Taken? && t.result.Taken? ==> t.result.value == t.terminal.value.Carried())
      && |t.queue| <= capacity && (Bytes(Charged(t)) <= budget || OversizedAlone(Charged(t), budget))
  {
    RunKeeps(Start(capacity, budget), steps);
    RunKeepsLimits(Start(capacity, budget), steps);
    WithinBudget(After(Start(capacity, budget), steps));
  }

  /** An uncancelled push that waits gets its permits exactly when its bytes, at least one, fit beside what is queued,
      or nothing is queued. */
  lemma AcquiresIff(s: State)
    requires Inv(s) && s.phase.Waiting? && !s.cancelled
    ensures CanProduce(s, Acquire) <==> s.queue == [] || Sizes(s.queue) + Size(s.phase.event) <= s.budget
  {
    var event := s.phase.event;
    assert Charged(s) == s.queue;
    ChargedWeights(s);
    WeightsAreSizes(s.queue, s.budget);
    WeightsAreSizes([event], s.budget);
    assert Weights([event], s.budget) == Weight(event, s.budget) && Sizes([event]) == Size(event);
    if exists e | e in s.queue :: Size(e) > s.budget {
      var e :| e in s.queue && Size(e) > s.budget;
      assert Size(e) <= Sizes(s.queue);
    }
    if Size(event) > s.budget {
      assert event in [event];
    }
  }

  /** And it is queued exactly when there is room. */
  lemma AcceptsIff(s: State)
    requires Inv(s) && s.phase.Holding? && !s.cancelled
    ensures CanProduce(s, Accept) <==> |s.queue| < s.capacity
    ensures CanProduce(s, Accept) ==>
              var t := AfterProduce(s, Accept);
              && t.queue == s.queue + [s.phase.event] && t.accepted == s.accepted + [s.phase.event] && t.phase.Idle?
              && t.committed == Some(s.phase.event.partial) && t.held == 0
  {
  }

  /** What a step can never undo. */
  predicate Onward(s: State, t: State) {
    && (s.done ==> t.done && t.chosen == s.chosen && t.aborted == s.aborted && t.accepted == s.accepted)
    && (s.cancelled ==> t.cancelled && t.accepted == s.accepted)
    && s.accepted <= t.accepted && s.received <= t.received
    && (s.terminal.Taken? ==> t.terminal == s.terminal && t.received == s.received)
  }

  lemma ProduceIsOnward(s: State, step: ProducerStep)
    requires CanProduce(s, step) && PhaseFits(s) && Ordered(s)
    ensures Onward(s, AfterProduce(s, step))
  {
  }

  lemma StepIsOnward(s: State, step: Step)
    requires Enabled(s, step) && PhaseFits(s) && Ordered(s)
    ensures Onward(s, Apply(s, step))
  {
    if step.Produce? {
      ProduceIsOnward(s, step.p);
    }
  }

  /** The first terminal wins, nothing follows it, and nothing is accepted after it or after a cancellation. */
  lemma {:induction false} RunIsOnward(s: State, steps: seq<Step>)
    requires Inv(s) && Legal(s, steps)
    ensures Onward(s, After(s, steps))
    decreases |steps|
  {
    if steps != [] {
      StepIsOnward(s, steps[0]);
      Keeps(s, steps[0]);
      RunIsOnward(Apply(s, steps[0]), steps[1..]);
    }
  }

  /** Whatever happened before and whatever happens after, a terminal pushed once cancelled is delivered as an abort
      with exactly the content of the last queued event, the metadata of what was committed and the pushed error's
      text, if it was an abort itself; and the result says the same. */
  lemma CancelledTerminal(s: State, event: Event, steps: seq<Step>)
    requires Inv(s) && s.cancelled && s.phase.Idle? && !s.done && event.Terminal()
    requires Legal(BeginPush(s, event), steps)
    ensures
      var t := After(BeginPush(s, event), steps);
      && t.chosen.Some? && t.chosen.value.Error? && t.chosen.value.aborted
      && t.chosen.value.failure
         == Message(LastContent(s.accepted),
                    if s.committed.Some? then s.committed.value.source else event.Carried().source,
                    if s.committed.Some? then s.committed.value.meta else "",
                    Aborted,
                    if event.Error? && event.aborted && event.failure.error.Some? then event.failure.error
                    else Some("Request aborted"))
      && (t.terminal.Published() ==> t.terminal.value == t.chosen.value)
      && (t.result.Published() ==> t.result.value == t.chosen.value.failure)
  {
    var begun := BeginPush(s, event);
    ProduceKeeps(s, Begin(event));
    assert begun == AfterProduce(s, Begin(event));
    RunKeeps(begun, steps);
    RunIsOnward(begun, steps);
  }

  /** Metadata checkpoints never change the committed content, and take over everything else of the message. */
  lemma MetadataKeepsContent(s: State, message: Message)
    requires Inv(s) && s.phase.Idle?
    ensures
      var t := AfterProduce(s, Commit(message));
      && t.accepted == s.accepted
      && (t.committed.Some? ==> t.committed.value.content == LastContent(s.accepted))
      && (!s.cancelled ==> t.committed == Some(message.(content := LastContent(s.accepted))))
      && (s.cancelled ==> t.committed == s.committed)
  {
    ProduceKeeps(s, Commit(message));
  }

  lemma WeightFits(event: Event, budget: nat)
    requires budget > 0
    ensures 1 <= Weight(event, budget) <= budget
  {
  }

  /** A blocked producer always has something ahead of it in the queue. */
  lemma BlockedHasQueue(s: State)
    requires Inv(s) && s.Blocked()
    ensures s.queue != []
  {
    if s.phase.Waiting? {
      WeightFits(s.phase.event, s.budget);
    }
  }

  /** So receiving what is queued unblocks it, even when its event is larger than the whole budget. */
  lemma {:induction false} DrainingUnblocks(s: State)
    requires Inv(s) && (s.consumer.Listening? || s.consumer.Draining?)
    ensures
      var drain := seq(|s.queue|, _ => Consume(Receive));
      Legal(s, drain) && Inv(After(s, drain)) && After(s, drain).phase == s.phase && !After(s, drain).Blocked()
    decreases |s.queue|
  {
    var drain := seq(|s.queue|, _ => Consume(Receive));
    if s.queue == [] {
      if s.Blocked() {
        BlockedHasQueue(s);
      }
    } else {
      var t := Apply(s, Consume(Receive));
      Keeps(s, Consume(Receive));
      assert drain[1..] == seq(|t.queue|, _ => Consume(Receive));
      DrainingUnblocks(t);
    }
  }

  /** Once the producer is done or dropped, a listening consumer always has a next answer: an event, the
      terminal, or the end; and a draining one has the result or the error. */
  lemma ConsumerNotStuck(s: State)
    requires Inv(s) && !s.fifoOpen && (s.phase.Idle? || (s.phase.Dropped? && !s.result.Open?))
    ensures s.consumer.Listening? ==>
              CanConsume(s, Receive) || CanConsume(s, TakeTerminal) || CanConsume(s, EndBare)
    ensures s.consumer.Draining? ==> CanConsume(s, TakeResult) || CanConsume(s, ResultError)
  {
  }

  /** A run is cancelled exactly when somebody cancelled it or the consumer left. */
  lemma {:induction false} CancelledIff(s: State, steps: seq<Step>)
    requires Legal(s, steps) && (s.consumer.Gone? ==> s.cancelled)
    ensures After(s, steps).cancelled <==> s.cancelled || Cancel in steps || After(s, steps).consumer.Gone?
    decreases |steps|
  {
    if steps != [] {
      assert steps == [steps[0]] + steps[1..];
      CancelledIff(Apply(s, steps[0]), steps[1..]);
      if Apply(s, steps[0]).consumer.Gone? {
        LeftForGood(Apply(s, steps[0]), steps[1..]);
      }
    }
  }

  lemma {:induction false} LeftForGood(s: State, steps: seq<Step>)
    requires Legal(s, steps) && s.consumer.Gone?
    ensures After(s, steps).consumer.Gone?
    decreases |steps|
  {
    if steps != [] {
      LeftForGood(Apply(s, steps[0]), steps[1..]);
    }
  }

  function StepsLeft(phase: Phase): nat {
    match phase
    case Waiting(_) => 7
    case Holding(_) => 7
    case Resulting => 9
    case Sending => 8
    case Closing => 7
    case Idle => 6
    case Dropping => 5
    case Dropped => 4
  }

  /** The producer can always be dropped, whatever it waits for: its own steps then leave no channel open. */
  lemma {:induction false} ProducerCanLeave(s: State) returns (steps: seq<Step>)
    requires Inv(s)
    ensures Legal(s, steps) && forall step | step in steps :: step.Produce?
    ensures var t := After(s, steps); t.phase.Dropped? && !t.terminal.Open? && !t.result.Open? && !t.fifoOpen
    decreases StepsLeft(s.phase), s.result.Open?
  {
    steps := [];
    if !s.phase.Dropped? || s.result.Open? {
      var p := match s.phase
               case Waiting(_) => Abandon
               case Holding(_) => Abandon
               case Resulting => SendResult
               case Sending => SendTerminal
               case Closing => CloseFifo
               case Idle => DropProducer
               case Dropping => CloseTerminal
               case Dropped => CloseResult;
      ProduceKeeps(s, p);
      var rest := ProducerCanLeave(AfterProduce(s, p));
      steps := [Produce(p)] + rest;
      assert steps[1..] == rest;
    }
  }

  // ----- the operations, with anything the other side does at each await -----

  /** What a push came to; a push that was dropped while it waited is `Dropped`. */
  datatype Pushed = Answered(ok: bool) | DroppedWhileWaiting

  datatype Received<T> = Got(value: T) | Ended | StillPending

  /** Consumer steps and cancellation leave the producer's own fields alone. */
  predicate ProducerUntouched(s: State, t: State) {
    && t.phase == s.phase && t.committed == s.committed && t.done == s.done && t.chosen == s.chosen
    && t.fifoOpen == s.fifoOpen && t.accepted == s.accepted && t.held == s.held
    && t.capacity == s.capacity && t.budget == s.budget
    && (s.cancelled ==> t.cancelled) && (t.terminal.Published() == s.terminal.Published())
  }

  lemma ConsumeLeavesProducer(s: State, step: ConsumerStep)
    requires CanConsume(s, step)
    ensures ProducerUntouched(s, AfterConsume(s, step))
  {
  }

  class Stream {
    var now: State

    constructor (capacity: nat, budget: nat)
      requires capacity > 0 && budget > 0
      ensures now == Start(capacity, budget) && Inv(now)
    {
      now := Start(capacity, budget);
    }

    method Produces(step: ProducerStep)
      requires Inv(now) && CanProduce(now, step)
      modifies this
      ensures now == AfterProduce(old(now), step) && Inv(now)
    {
      ProduceKeeps(now, step);
      now := AfterProduce(now, step);
    }

    method Consumes(step: ConsumerStep)
      requires Inv(now) && CanConsume(now, step)
      modifies this
      ensures now == AfterConsume(old(now), step) && Inv(now) && ProducerUntouched(old(now), now)
    {
      ConsumeKeeps(now, step);
      ConsumeLeavesProducer(now, step);
      now := AfterConsume(now, step);
    }

    method Cancels()
      requires Inv(now)
      modifies this
      ensures now == old(now).(cancelled := true) && Inv(now)
    {
      now := now.(cancelled := true);
    }

    /** The consumer and the canceller run for a while. */
    method ConsumerRuns()
      requires Inv(now)
      modifies this
      ensures Inv(now) && ProducerUntouched(old(now), now)
    {
      var n: nat :| true;
      for i := 0 to n
        invariant Inv(now) && ProducerUntouched(old(now), now)
      {
        var c: ConsumerStep :| true;
        if CanConsume(now, c) {
          Consumes(c);
        } else {
          Cancels();
        }
      }
    }

    /** The producer and the canceller run for a while. */
    method ProducerRuns()
      requires Inv(now)
      modifies this
      ensures Inv(now) && now.received == old(now).received && now.consumer == old(now).consumer
    {
      var n: nat :| true;
      for i := 0 to n
        invariant Inv(now) && now.received == old(now).received && now.consumer == old(now).consumer
      {
        var p: ProducerStep :| true;
        if CanProduce(now, p) {
          Produces(p);
        } else {
          Cancels();
        }
      }
    }

    /** `push`: accepted at the end of the queue, or refused by cancellation with nothing committed. */
    method Push(event: Event) returns (r: Pushed)
      requires Inv(now) && now.phase.Idle?
      modifies this
      ensures Inv(now) && now.phase.Idle?
      ensures old(now).done ==> r == Answered(true) && now == old(now)
      ensures !old(now).done && event.Terminal() ==>
                && r.Answered? && now.done && now.terminal.Published() && now.accepted == old(now).accepted
                && now.chosen == Some(if old(now).cancelled then AbortedTerminal(old(now).committed, event) else event)
      ensures !old(now).done && !event.Terminal() ==>
                && !now.done
                && (r == Answered(true) ==>
                      now.accepted == old(now).accepted + [event] && now.committed == Some(event.partial))
                && (r != Answered(true) ==>
                      now.accepted == old(now).accepted && now.committed == old(now).committed)
                && (r == Answered(false) ==> now.cancelled)
    {
      if now.done {
        return Answered(true);
      }
      if event.Terminal() {
        r := PushTerminal(event);
      } else {
        Produces(Begin(event));
        var outcome := AwaitPermits();
        if outcome.Some? {
          return outcome.value;
        }
        r := AwaitRoom();
      }
    }

    /** The terminal and the result bypass both limits, and the queue closes last. */
    method PushTerminal(event: Event) returns (r: Pushed)
      requires Inv(now) && now.phase.Idle? && !now.done && event.Terminal()
      modifies this
      ensures Inv(now) && now.phase.Idle? && now.done && now.terminal.Published() && r.Answered?
      ensures now.accepted == old(now).accepted
      ensures now.chosen == Some(if old(now).cancelled then AbortedTerminal(old(now).committed, event) else event)
    {
      Produces(Begin(event));
      ConsumerRuns();
      Produces(SendResult);
      ConsumerRuns();
      var delivered := !now.consumer.Gone?;
      Produces(SendTerminal);
      ConsumerRuns();
      Produces(CloseFifo);
      r := Answered(delivered);
    }

    /** Waiting for the payload's permits. */
    method AwaitPermits() returns (outcome: Option<Pushed>)
      requires Inv(now) && now.phase.Waiting?
      modifies this
      ensures Inv(now) && now.accepted == old(now).accepted && now.committed == old(now).committed && !now.done
      ensures outcome.None? ==> now.phase == Holding(old(now).phase.event)
      ensures outcome.Some? ==> now.phase.Idle? && outcome.value != Answered(true)
      ensures outcome == Some(Answered(false)) ==> now.cancelled
    {
      var patience: nat :| true;
      for i := 0 to patience
        invariant Inv(now) && ProducerUntouched(old(now), now)
      {
        if now.cancelled {
          Produces(Refuse);
          return Some(Answered(false));
        }
        if CanProduce(now, Acquire) {
          Produces(Acquire);
          return None;
        }
        ConsumerRuns();
      }
      Produces(Abandon);
      outcome := Some(DroppedWhileWaiting);
    }

    /** Waiting for room in the queue, with the permits held. */
    method AwaitRoom() returns (r: Pushed)
      requires Inv(now) && now.phase.Holding?
      modifies this
      ensures Inv(now) && now.phase.Idle? && !now.done
      ensures r == Answered(true) ==>
                && now.accepted == old(now).accepted + [old(now).phase.event]
                && now.committed == Some(old(now).phase.event.partial)
      ensures r != Answered(true) ==> now.accepted == old(now).accepted && now.committed == old(now).committed
      ensures r == Answered(false) ==> now.cancelled
    {
      var patience: nat :| true;
      for i := 0 to patience
        invariant Inv(now) && ProducerUntouched(old(now), now)
      {
        if now.cancelled {
          Produces(Refuse);
          return Answered(false);
        }
        if CanProduce(now, Accept) {
          Produces(Accept);
          return Answered(true);
        }
        ConsumerRuns();
      }
      Produces(Abandon);
      r := DroppedWhileWaiting;
    }

    /** `commit_metadata`: nothing once cancelled, and otherwise all but the content. */
    method CommitMetadata(message: Message)
      requires Inv(now) && now.phase.Idle?
      modifies this
      ensures Inv(now) && now == AfterProduce(old(now), Commit(message))
    {
      ProduceKeeps(now, Commit(message));
      if now.cancelled {
        return;
      }
      var content := [];
      if now.committed.Some? {
        if SameMetadata(now.committed.value, message) {
          return;
        }
        content := now.committed.value.content;
      }
      now := now.(committed := Some(Message(content, message.source, message.meta, message.stopReason, message.error)));
    }

    /** `next`: what is queued first, and the terminal only once the queue has closed empty. */
    method Next() returns (r: Received<Event>)
      requires Inv(now) && (now.consumer.Listening? || now.consumer.Finished?)
      modifies this
      ensures Inv(now)
      ensures r.Got? ==> now.received == old(now).received + [r.value]
      ensures r.Got? ==> (r.value.Terminal() <==> now.consumer.Finished?)
      ensures !r.Got? ==> now.received == old(now).received
      ensures r.Ended? <==> now.consumer.Finished? && !r.Got?
    {
      if now.consumer.Finished? {
        return Ended;
      }
      var patience: nat :| true;
      for i := 0 to patience
        invariant Inv(now) && now.received == old(now).received && now.consumer.Listening?
      {
        if now.queue != [] {
          var event := now.queue[0];
          Consumes(Receive);
          return Got(event);
        }
        if CanConsume(now, TakeTerminal) {
          var event := now.terminal.value;
          Consumes(TakeTerminal);
          return Got(event);
        }
        if CanConsume(now, EndBare) {
          Consumes(EndBare);
          return Ended;
        }
        ProducerRuns();
      }
      r := StillPending;
    }

    /** `result`: events are discarded until the result, or its absence, is known; then the consumer leaves. */
    method Result() returns (r: Received<Message>)
      requires Inv(now) && (now.consumer.Listening? || now.consumer.Finished?)
      modifies this
      ensures Inv(now)
      ensures r.Got? ==> now.chosen.Some? && r.value == now.chosen.value.Carried() && now.result == Taken(r.value)
      ensures r.Ended? ==> !now.done
      ensures !r.StillPending? ==> now.consumer.Gone? && now.cancelled
    {
      Consumes(StartResult);
      var patience: nat :| true;
      for i := 0 to patience
        invariant Inv(now) && now.consumer.Draining?
      {
        if CanConsume(now, TakeResult) {
          var message := now.result.value;
          Consumes(TakeResult);
          return Got(message);
        }
        if CanConsume(now, ResultError) {
          Consumes(ResultError);
          return Ended;
        }
        if now.queue != [] {
          Consumes(Receive);
        } else {
          ProducerRuns();
        }
      }
      r := StillPending;
    }
  }
}
