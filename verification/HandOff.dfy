/** How a foreground agent run is handed over in `agent_tool.rs`: its call, its worker and the watcher of its
    lifetime race over one atomic tie. Every step between two await points is atomic. */
module HandOff {
  import opened JsonValues

  datatype Tie = Attached | Detached | Finished

  /** The call waits, has the outcome, has settled the run, has answered with the outcome, or was released. */
  datatype Call = Waiting | Received | Settled | Answered | Released

  /** The worker runs, has an outcome, has found itself released, has settled, is about to close, or is over. */
  datatype Worker = Running | Ended | Alone | Reporting | Closing | Over

  /** The watcher waits, has seen the call's signal or scope end, is about to stop the run, keeps watching for a
      released run, or is done. */
  datatype Watcher = Watching | Woken | Stopping | Following | Done

  /** The tokens: the caller's `signal`, `scope` and `session`, and the run's `stop` and `life`. `stopped` says
      that the watcher stopped the run for its call. */
  datatype Tokens = Tokens(watcher: Watcher, signal: bool, scope: bool, session: bool, stop: bool, life: bool,
                           stopped: bool)

  /** What happened to the run's outcome. */
  datatype Ledger = Ledger(settled: nat, answers: nat, notes: nat)

  /** `sent` is the outcome on its way to the call, `steered` a steering message it has not noticed. */
  datatype State = State(tie: Tie, call: Call, worker: Worker, sent: bool, steered: bool,
                         tokens: Tokens, ledger: Ledger)

  datatype OutsideStep = Steer | CancelSignal | EndScope | EndSession

  datatype CallStep = Notice | Receive | CallSettles | Answer

  datatype WorkerStep = RunEnds | Decide | WorkerSettles | TellParent | CloseLife

  datatype WatcherStep = Wake | Load | StopRun | Follow

  datatype Step = Outside(o: OutsideStep) | ByCall(c: CallStep) | ByWorker(t: WorkerStep) | ByWatcher(w: WatcherStep)

  const START := State(Attached, Waiting, Running, false, false,
                       Tokens(Watching, false, false, false, false, false, false), Ledger(0, 0, 0))

  predicate CanCall(s: State, step: CallStep) {
    match step
    case Notice => s.call.Waiting? && s.steered
    case Receive => s.call.Waiting? && s.sent
    case CallSettles => s.call.Received?
    case Answer => s.call.Settled?
  }

  predicate CanWorker(s: State, step: WorkerStep) {
    match step
    case RunEnds => s.worker.Running?
    case Decide => s.worker.Ended?
    case WorkerSettles => s.worker.Alone?
    case TellParent => s.worker.Reporting?
    case CloseLife => s.worker.Closing?
  }

  predicate CanWatch(k: Tokens, step: WatcherStep) {
    match step
    case Wake => k.watcher.Watching? && (k.life || k.session || k.signal || k.scope)
    case Load => k.watcher.Woken?
    case StopRun => k.watcher.Stopping?
    case Follow => k.watcher.Following? && (k.life || k.session)
  }

  predicate Enabled(s: State, step: Step) {
    match step
    case Outside(_) => true
    case ByCall(c) => CanCall(s, c)
    case ByWorker(t) => CanWorker(s, t)
    case ByWatcher(w) => CanWatch(s.tokens, w)
  }

  function AfterOutside(s: State, step: OutsideStep): State {
    match step
    case Steer => s.(steered := true)
    case CancelSignal => s.(tokens := s.tokens.(signal := true))
    case EndScope => s.(tokens := s.tokens.(scope := true))
    case EndSession => s.(tokens := s.tokens.(session := true))
  }

  /** A steering message releases the call if it still can. */
  function AfterCall(s: State, step: CallStep): State {
    match step
    case Notice =>
      if s.tie.Attached? then s.(steered := false, tie := Detached, call := Released) else s.(steered := false)
    case Receive => s.(call := Received, sent := false)
    case CallSettles => s.(call := Settled, ledger := s.ledger.(settled := s.ledger.settled + 1))
    case Answer => s.(call := Answered, ledger := s.ledger.(answers := s.ledger.answers + 1))
  }

  /** The outcome goes to the call if that still waits. */
  function AfterWorker(s: State, step: WorkerStep): State {
    match step
    case RunEnds => s.(worker := Ended)
    case Decide => if s.tie.Attached? then s.(tie := Finished, sent := true, worker := Closing) else s.(worker := Alone)
    case WorkerSettles => s.(worker := Reporting, ledger := s.ledger.(settled := s.ledger.settled + 1))
    case TellParent => s.(worker := Closing, ledger := s.ledger.(notes := s.ledger.notes + 1))
    case CloseLife => s.(worker := Over, tokens := s.tokens.(life := true))
  }

  /** The end of the run counts first, then that of the session, then that of the call. */
  function AfterWatch(k: Tokens, detached: bool, step: WatcherStep): Tokens {
    match step
    case Wake =>
      if k.life then k.(watcher := Done)
      else if k.session then k.(watcher := Done, life := true)
      else k.(watcher := Woken)
    case Load => k.(watcher := if detached then Following else Stopping)
    case StopRun =>
      if k.signal then k.(watcher := Done, stop := true, stopped := true)
      else k.(watcher := Done, life := true, stopped := true)
    case Follow => k.(watcher := Done, life := k.life || k.session)
  }

  function Apply(s: State, step: Step): State {
    match step
    case Outside(o) => AfterOutside(s, o)
    case ByCall(c) => AfterCall(s, c)
    case ByWorker(t) => AfterWorker(s, t)
    case ByWatcher(w) => s.(tokens := AfterWatch(s.tokens, s.tie.Detached?, w))
  }

  function One(b: bool): nat {
    if b then 1 else 0
  }

  // ----- what every step keeps -----

  /** The tie says which side has the outcome, and each side has counted what it did with it. */
  predicate Tied(s: State) {
    && (s.call.Released? <==> s.tie.Detached?)
    && (s.worker.Alone? || s.worker.Reporting? ==> s.tie.Detached?)
    && (s.tie.Attached? ==> s.worker.Running? || s.worker.Ended?)
    && (s.tie.Finished? ==> s.worker.Closing? || s.worker.Over?)
    && (s.sent <==> s.tie.Finished? && s.call.Waiting?)
    && (s.tie.Attached? ==> s.call.Waiting?)
  }

  predicate Counted(s: State) {
    var alone := s.tie.Detached?;
    && s.ledger.answers == One(s.call.Answered?)
    && s.ledger.notes == One(alone && (s.worker.Closing? || s.worker.Over?))
    && s.ledger.settled == One(s.call.Settled? || s.call.Answered?)
                           + One(alone && (s.worker.Reporting? || s.worker.Closing? || s.worker.Over?))
  }

  /** The watcher leaves its first wait for a run only if the call's signal or scope had ended. */
  predicate Watched(k: Tokens, over: bool) {
    && (k.watcher.Woken? || k.watcher.Stopping? || k.watcher.Following? ==> k.signal || k.scope)
    && (k.stopped ==> k.watcher.Done? && (k.signal || k.scope))
    && (k.stop ==> k.stopped && k.signal)
    && (k.life ==> k.stopped || k.session || over)
    && (k.watcher.Done? ==> k.life || k.stop)
  }

  predicate Inv(s: State) {
    Tied(s) && Counted(s) && Watched(s.tokens, s.worker.Over?)
  }

  lemma CallKeeps(s: State, step: CallStep)
    requires CanCall(s, step) && Inv(s)
    ensures Inv(AfterCall(s, step))
  {
  }

  lemma WorkerKeeps(s: State, step: WorkerStep)
    requires CanWorker(s, step) && Inv(s)
    ensures Inv(AfterWorker(s, step))
  {
  }

  lemma WatcherKeeps(k: Tokens, over: bool, detached: bool, step: WatcherStep)
    requires CanWatch(k, step) && Watched(k, over)
    ensures Watched(AfterWatch(k, detached, step), over)
  {
  }

  lemma OutsideKeeps(s: State, step: OutsideStep)
    requires Inv(s)
    ensures Inv(AfterOutside(s, step))
  {
  }

  lemma Keeps(s: State, step: Step)
    requires Enabled(s, step) && Inv(s)
    ensures Inv(Apply(s, step))
  {
    match step
    case Outside(o) => OutsideKeeps(s, o);
    case ByCall(c) => CallKeeps(s, c);
    case ByWorker(t) => WorkerKeeps(s, t);
    case ByWatcher(w) => WatcherKeeps(s.tokens, s.worker.Over?, s.tie.Detached?, w);
  }

  // ----- whole runs -----

  predicate Legal(s: State, steps: seq<Step>)
    decreases |steps|
  {
    steps == [] || (Enabled(s, steps[0]) && Legal(Apply(s, steps[0]), steps[1..]))
  }

  function After(s: State, steps: seq<Step>): State
    requires Legal(s, steps)
    decreases |steps|
  {
    if steps == [] then s else After(Apply(s, steps[0]), steps[1..])
  }

  lemma {:induction false} RunKeeps(s: State, steps: seq<Step>)
    requires Inv(s) && Legal(s, steps)
    ensures Inv(After(s, steps))
    decreases |steps|
  {
    if steps != [] {
      Keeps(s, steps[0]);
      RunKeeps(Apply(s, steps[0]), steps[1..]);
    }
  }

  predicate CallOver(s: State) {
    s.call.Answered? || s.call.Released?
  }

  /** Settled at most once, and at most one route, by the side that won the tie; exactly one when call and worker
      are over. */
  predicate Routed(s: State) {
    var answers, notes := s.ledger.answers, s.ledger.notes;
    && s.ledger.settled <= 1 && answers + notes <= 1
    && (answers == 1 ==> s.tie.Finished?) && (notes == 1 ==> s.tie.Detached?)
    && (s.worker.Over? && CallOver(s) ==> s.ledger.settled == 1 && answers + notes == 1 && !s.tie.Attached?)
  }

  lemma RoutedByInvariant(s: State)
    requires Inv(s)
    ensures Routed(s)
  {
  }

  /** Whatever the order of finish, steering and session end. */
  lemma OneRoute(s: State, steps: seq<Step>)
    requires s == START && Legal(s, steps)
    ensures Routed(After(s, steps))
  {
    RunKeeps(s, steps);
    RoutedByInvariant(After(s, steps));
  }

  /** Until then one of them can always go on, so no outcome is left without a route. */
  lemma OutcomeNotStuck(s: State) returns (step: Step)
    requires Inv(s) && !(s.worker.Over? && CallOver(s))
    ensures (step.ByWorker? || (step.ByCall? && !step.c.Notice?)) && Enabled(s, step)
  {
    step := match s.worker
            case Running => ByWorker(RunEnds)
            case Ended => ByWorker(Decide)
            case Alone => ByWorker(WorkerSettles)
            case Reporting => ByWorker(TellParent)
            case Closing => ByWorker(CloseLife)
            case Over => ByCall(if s.call.Waiting? then Receive else if s.call.Received? then CallSettles else Answer);
  }

  // ----- a released run belongs to the session -----

  /** The tie is decided once. */
  lemma {:induction false} TieIsFinal(s: State, steps: seq<Step>)
    requires Legal(s, steps) && !s.tie.Attached?
    ensures After(s, steps).tie == s.tie
    decreases |steps|
  {
    if steps != [] {
      TieIsFinal(Apply(s, steps[0]), steps[1..]);
    }
  }

  /** Stopped for its call, or about to be. */
  predicate Stops(k: Tokens) {
    k.watcher.Stopping? || k.stopped
  }

  lemma FollowedStep(s: State, step: Step)
    requires Enabled(s, step) && s.tie.Detached? && !Stops(s.tokens)
    ensures Apply(s, step).tie.Detached? && !Stops(Apply(s, step).tokens)
  {
  }

  lemma {:induction false} FollowedIsNotStopped(s: State, steps: seq<Step>)
    requires Legal(s, steps) && s.tie.Detached? && !Stops(s.tokens)
    ensures !Stops(After(s, steps).tokens)
    decreases |steps|
  {
    if steps != [] {
      FollowedStep(s, steps[0]);
      FollowedIsNotStopped(Apply(s, steps[0]), steps[1..]);
    }
  }

  predicate Releases(s: State) {
    s.call.Waiting? && s.steered && s.tie.Attached?
  }

  /** A course of events on which the watcher stops the run for its call. */
  predicate StopsIt(s: State, steps: seq<Step>) {
    Legal(s, steps) && After(s, steps).tokens.stopped
  }

  /** Exactly the released runs that the watcher had already stopped, or had already decided to stop, can be stopped
      for their old call: a signal that the watcher has not acted on by then no longer counts. */
  lemma ReleasedRunStopsIff(s: State)
    requires Inv(s) && Releases(s)
    ensures (exists steps :: StopsIt(AfterCall(s, Notice), steps)) <==> Stops(s.tokens)
  {
    var released := AfterCall(s, Notice);
    var none: seq<Step> := [];
    if s.tokens.stopped {
      assert StopsIt(released, none);
    } else if s.tokens.watcher.Stopping? {
      LegalCons(released, ByWatcher(StopRun), none);
      assert StopsIt(released, [ByWatcher(StopRun)] + none);
    } else {
      forall steps | Legal(released, steps) ensures !After(released, steps).tokens.stopped {
        FollowedIsNotStopped(released, steps);
      }
    }
  }

  /** Any other released run ends only with the session or by itself. */
  lemma ReleasedRunGoesOn(s: State, steps: seq<Step>)
    requires Inv(s) && Releases(s) && !Stops(s.tokens) && Legal(AfterCall(s, Notice), steps)
    ensures
      var t := After(AfterCall(s, Notice), steps);
      !t.tokens.stopped && !t.tokens.stop && (t.tokens.life ==> t.tokens.session || t.worker.Over?)
  {
    CallKeeps(s, Notice);
    FollowedIsNotStopped(AfterCall(s, Notice), steps);
    RunKeeps(AfterCall(s, Notice), steps);
  }

  /** So does one whose call had neither been signalled nor ended: then the watcher cannot have decided. */
  lemma UnsignalledRunGoesOn(s: State, steps: seq<Step>)
    requires Inv(s) && Releases(s) && !s.tokens.signal && !s.tokens.scope && Legal(AfterCall(s, Notice), steps)
    ensures
      var t := After(AfterCall(s, Notice), steps);
      !t.tokens.stopped && !t.tokens.stop && (t.tokens.life ==> t.tokens.session || t.worker.Over?)
  {
    ReleasedRunGoesOn(s, steps);
  }

  /** A run from the start in which that happens: the watcher looks at the tie before the release and acts on it
      after. */
  lemma SignalledRunMayStop(s: State)
    requires s == START
    ensures Legal(s, RACE) && After(s, RACE).tie.Detached? && After(s, RACE).tokens.stop
  {
    var s1 := Apply(s, RACE[0]);
    var s2 := Apply(s1, RACE[1]);
    var s3 := Apply(s2, RACE[2]);
    var s4 := Apply(s3, RACE[3]);
    var s5 := Apply(s4, RACE[4]);
    LegalCons(s5, RACE[5], []);
    LegalCons(s4, RACE[4], RACE[5..]);
    LegalCons(s3, RACE[3], RACE[4..]);
    LegalCons(s2, RACE[2], RACE[3..]);
    LegalCons(s1, RACE[1], RACE[2..]);
    LegalCons(s, RACE[0], RACE[1..]);
  }

  const RACE := [Outside(CancelSignal), ByWatcher(Wake), ByWatcher(Load), Outside(Steer), ByCall(Notice),
                 ByWatcher(StopRun)]

  lemma LegalCons(s: State, step: Step, rest: seq<Step>)
    requires Enabled(s, step) && Legal(Apply(s, step), rest)
    ensures Legal(s, [step] + rest) && After(s, [step] + rest) == After(Apply(s, step), rest)
  {
    assert ([step] + rest)[1..] == rest;
  }

  // ----- nobody is kept waiting -----

  /** Once the run, the session, the signal or the scope has ended, a watcher that waits for the call goes on; one that
      follows a released run goes on once the run or the session has ended. Otherwise it only ever waits for these. */
  lemma WatcherNotStuck(k: Tokens) returns (step: WatcherStep)
    ensures CanWatch(k, step) <==>
              match k.watcher
              case Watching => k.life || k.session || k.signal || k.scope
              case Following => k.life || k.session
              case Done => false
              case _ => true
    ensures !CanWatch(k, step) ==> forall other :: !CanWatch(k, other)
  {
    step := match k.watcher
            case Watching => Wake
            case Woken => Load
            case Stopping => StopRun
            case _ => Follow;
  }

  function Left(watcher: Watcher): nat {
    match watcher
    case Watching => 4
    case Woken => 3
    case Stopping => 2
    case Following => 1
    case Done => 0
  }

  /** So a session that ends takes every foreground run with it: the watcher's own steps end the run, or tell it to
      stop, whatever had happened before. */
  lemma {:induction false} SessionEndsRun(s: State) returns (steps: seq<Step>)
    requires Inv(s) && s.tokens.session
    ensures Legal(s, steps) && forall step | step in steps :: step.ByWatcher?
    ensures After(s, steps).tokens.watcher.Done? && (After(s, steps).tokens.life || After(s, steps).tokens.stop)
    decreases Left(s.tokens.watcher)
  {
    steps := [];
    if !s.tokens.watcher.Done? {
      var step := WatcherNotStuck(s.tokens);
      Keeps(s, ByWatcher(step));
      var rest := SessionEndsRun(Apply(s, ByWatcher(step)));
      LegalCons(s, ByWatcher(step), rest);
      steps := [ByWatcher(step)] + rest;
    }
  }

  /** A steering message releases any call that still waits, unless its run has just ended. */
  lemma SteeringReleases(s: State)
    requires Inv(s) && s.call.Waiting?
    ensures Legal(s, [Outside(Steer), ByCall(Notice)])
    ensures After(s, [Outside(Steer), ByCall(Notice)]).call == if s.tie.Attached? then Released else Waiting
  {
    LegalCons(AfterOutside(s, Steer), ByCall(Notice), []);
    LegalCons(s, Outside(Steer), [ByCall(Notice)]);
    assert [ByCall(Notice)] + [] == [ByCall(Notice)];
    assert [Outside(Steer)] + [ByCall(Notice)] == [Outside(Steer), ByCall(Notice)];
  }

  /** What the outside has done, if one step or many say so. */
  ghost predicate Told(s: State, t: State, signal: bool, scope: bool, session: bool, steer: bool) {
    && (t.tokens.signal <==> s.tokens.signal || signal)
    && (t.tokens.scope <==> s.tokens.scope || scope)
    && (t.tokens.session <==> s.tokens.session || session)
    && (t.steered || t.call.Released? ==> s.steered || s.call.Released? || steer)
  }

  lemma StepTells(s: State, step: Step)
    requires Enabled(s, step)
    ensures Told(s, Apply(s, step), step == Outside(CancelSignal), step == Outside(EndScope),
                 step == Outside(EndSession), step == Outside(Steer))
  {
    match step
    case Outside(_) =>
    case ByCall(_) =>
    case ByWorker(_) =>
    case ByWatcher(_) =>
  }

  /** The tokens have ended exactly when somebody ended them, and only steering releases a call. */
  lemma {:induction false} OutsideIff(s: State, steps: seq<Step>)
    requires Legal(s, steps)
    ensures Told(s, After(s, steps), Outside(CancelSignal) in steps, Outside(EndScope) in steps,
                 Outside(EndSession) in steps, Outside(Steer) in steps)
    decreases |steps|
  {
    if steps != [] {
      StepTells(s, steps[0]);
      OutsideIff(Apply(s, steps[0]), steps[1..]);
      forall o ensures Outside(o) in steps <==> Outside(o) == steps[0] || Outside(o) in steps[1..] {
        assert steps == [steps[0]] + steps[1..];
      }
    }
  }

  // ----- the waiting call -----

  class Shared {
    var now: State

    constructor ()
      ensures now == START && Inv(now)
    {
      now := START;
    }

    method Call(step: CallStep)
      requires Inv(now) && CanCall(now, step)
      modifies this
      ensures now == AfterCall(old(now), step) && Inv(now)
    {
      CallKeeps(now, step);
      now := AfterCall(now, step);
    }

    /** The worker, the watcher and the outside run for a while. */
    method OthersRun()
      requires Inv(now)
      modifies this
      ensures Inv(now) && LeavesCall(old(now), now)
    {
      var n: nat :| true;
      for i := 0 to n
        invariant Inv(now) && LeavesCall(old(now), now)
      {
        var step: Step :| true;
        if Enabled(now, step) && !step.ByCall? {
          Keeps(now, step);
          OtherStep(now, step);
          now := Apply(now, step);
        }
      }
    }

    /** The outcome that was sent: settled and answered. */
    method TakeOutcome()
      requires Inv(now) && now.call.Waiting? && now.sent
      modifies this
      ensures Inv(now) && now.call.Answered? && now.tie.Finished?
    {
      Call(Receive);
      OthersRun();
      Call(CallSettles);
      OthersRun();
      Call(Answer);
    }

    /** `drive` in the foreground, from the spawned worker on: the outcome, or a release by a steering message.
        `None` while it still waits. */
    method Drive() returns (answered: Option<bool>)
      requires Inv(now) && now.call.Waiting?
      modifies this
      ensures Inv(now)
      ensures answered == Some(true) ==> now.call.Answered? && now.tie.Finished?
      ensures answered == Some(false) ==> now.call.Released? && now.tie.Detached?
      ensures answered.None? ==> now.call.Waiting?
    {
      var patience: nat :| true;
      for i := 0 to patience
        invariant Inv(now) && now.call.Waiting?
      {
        OthersRun();
        var outcomeFirst: bool := *;
        if now.sent && (outcomeFirst || !now.steered) {
          TakeOutcome();
          return Some(true);
        }
        if now.steered {
          Call(Notice);
          if now.call.Released? {
            return Some(false);
          }
        }
      }
      answered := None;
    }
  }

  /** What the others leave to the call. */
  predicate LeavesCall(s: State, t: State) {
    t.call == s.call && (!s.tie.Attached? ==> t.tie == s.tie)
  }

  lemma OtherStep(s: State, step: Step)
    requires Enabled(s, step) && !step.ByCall?
    ensures LeavesCall(s, Apply(s, step))
  {
  }
}
