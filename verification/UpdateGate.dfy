/** The update gate of `tool_program.rs`: callbacks enter and leave, `retire` closes the gate and waits for the
    last one. One counter with a closed bit orders admission against retirement; waiting goes through a notifier. */
module UpdateGate {

  /** The top bit of a 64-bit word. */
  const CLOSED := 0x8000_0000_0000_0000

  /** A waiter has called `retire`; it has set the bit and not yet registered; it has registered and not yet
      looked at the counter; it sleeps; it has returned. `woken` is the notification a registered waiter holds. */
  datatype Waiter = Called | Looping | Registered(woken: bool) | Parked(woken: bool) | Returned

  /** `state` is the word; `leaving` counts the callbacks that left last and have yet to notify. */
  datatype Gate = Gate(state: nat, leaving: nat, waiters: seq<Waiter>)
  {
    predicate IsClosed() {
      state >= CLOSED
    }

    function Active(): int {
      if IsClosed() then state - CLOSED else state
    }
  }

  datatype Step = Enter | Leave | Notify | Retire | Close(w: nat) | Register(w: nat) | Check(w: nat) | Wake(w: nat)

  const START := Gate(0, 0, [])

  predicate Stands(g: Gate, w: nat, waiter: Waiter) {
    w < |g.waiters| && g.waiters[w] == waiter
  }

  predicate Enabled(g: Gate, step: Step) {
    match step
    case Enter => true
    case Leave => g.Active() > 0
    case Notify => g.leaving > 0
    case Retire => true
    case Close(w) => Stands(g, w, Called)
    case Register(w) => Stands(g, w, Looping)
    case Check(w) => w < |g.waiters| && g.waiters[w].Registered?
    case Wake(w) => Stands(g, w, Parked(true))
  }

  /** `enter` is refused once the bit is set, and when one more would reach it. */
  predicate Admits(g: Gate) {
    !g.IsClosed() && g.state < CLOSED - 1
  }

  /** `notify_waiters` reaches every waiter that has registered. */
  function Notified(waiters: seq<Waiter>): (r: seq<Waiter>)
    ensures |r| == |waiters|
  {
    seq(|waiters|, i requires 0 <= i < |waiters| => Woken(waiters[i]))
  }

  function Woken(waiter: Waiter): Waiter {
    match waiter
    case Registered(_) => Registered(true)
    case Parked(_) => Parked(true)
    case other => other
  }

  function Apply(g: Gate, step: Step): Gate
    requires Enabled(g, step)
  {
    match step
    case Enter => if Admits(g) then g.(state := g.state + 1) else g
    case Leave =>
      g.(state := g.state - 1, leaving := if g.Active() == 1 then g.leaving + 1 else g.leaving)
    case Notify => Gate(g.state, g.leaving - 1, Notified(g.waiters))
    case Retire => g.(waiters := g.waiters + [Called])
    case Close(w) =>
      g.(state := if g.IsClosed() then g.state else g.state + CLOSED, waiters := g.waiters[w := Looping])
    case Register(w) => g.(waiters := g.waiters[w := Registered(false)])
    case Check(w) =>
      g.(waiters := g.waiters[w := if g.state == CLOSED then Returned else Parked(g.waiters[w].woken)])
    case Wake(w) => g.(waiters := g.waiters[w := Looping])
  }

  // ----- what every step keeps -----

  predicate WordFits(g: Gate) {
    g.state < 2 * CLOSED
  }

  /** A waiter past its first step has closed the gate, and one that has returned left it empty. */
  predicate Retired(g: Gate) {
    && (forall w | 0 <= w < |g.waiters| && g.waiters[w] != Called :: g.IsClosed())
    && forall w | 0 <= w < |g.waiters| && g.waiters[w].Returned? :: g.state == CLOSED
  }

  /** A sleeping waiter without a notification has one coming: a callback is still in, or is about to notify. */
  predicate NoLostWakeUp(g: Gate) {
    forall w | 0 <= w < |g.waiters| && g.waiters[w] == Parked(false) :: g.Active() > 0 || g.leaving > 0
  }

  predicate Inv(g: Gate) {
    WordFits(g) && Retired(g) && NoLostWakeUp(g)
  }

  lemma Keeps(g: Gate, step: Step)
    requires Enabled(g, step) && Inv(g)
    ensures Inv(Apply(g, step))
  {
  }

  // ----- whole runs -----

  predicate Legal(g: Gate, steps: seq<Step>)
    decreases |steps|
  {
    steps == [] || (Enabled(g, steps[0]) && Legal(Apply(g, steps[0]), steps[1..]))
  }

  function After(g: Gate, steps: seq<Step>): Gate
    requires Legal(g, steps)
    decreases |steps|
  {
    if steps == [] then g else After(Apply(g, steps[0]), steps[1..])
  }

  lemma {:induction false} RunKeeps(g: Gate, steps: seq<Step>)
    requires Inv(g) && Legal(g, steps)
    ensures Inv(After(g, steps))
    decreases |steps|
  {
    if steps != [] {
      Keeps(g, steps[0]);
      RunKeeps(Apply(g, steps[0]), steps[1..]);
    }
  }

  // ----- what the word stands for -----

  /** A door: whether it is shut, and how many callbacks are inside. */
  datatype Door = Door(shut: bool, inside: nat)

  /** What a step does to the door. One callback fewer than the word can count may be inside. */
  function Through(d: Door, step: Step): Door {
    match step
    case Enter => if d.shut || d.inside == 0x7FFF_FFFF_FFFF_FFFF then d else d.(inside := d.inside + 1)
    case Leave => if d.inside > 0 then d.(inside := d.inside - 1) else d
    case Close(_) => d.(shut := true)
    case _ => d
  }

  function DoorAfter(d: Door, steps: seq<Step>): Door
    decreases |steps|
  {
    if steps == [] then d else DoorAfter(Through(d, steps[0]), steps[1..])
  }

  ghost predicate Stores(g: Gate, d: Door) {
    d.shut == g.IsClosed() && d.inside == g.Active()
  }

  /** The one word is the door: over every run its top bit is set exactly once somebody has closed the gate, and the
      rest counts the callbacks that were let in and have not left. */
  lemma {:induction false} WordIsDoor(g: Gate, d: Door, steps: seq<Step>)
    requires Inv(g) && Stores(g, d) && Legal(g, steps)
    ensures Stores(After(g, steps), DoorAfter(d, steps))
    decreases |steps|
  {
    if steps != [] {
      Keeps(g, steps[0]);
      WordIsDoor(Apply(g, steps[0]), Through(d, steps[0]), steps[1..]);
    }
  }

  /** A notification reaches every waiter that has registered and not yet returned. */
  lemma NotifyReachesAll(g: Gate, w: nat)
    requires Enabled(g, Notify) && w < |g.waiters|
    ensures var waiter := Apply(g, Notify).waiters[w];
            && waiter != Registered(false) && waiter != Parked(false)
            && (waiter.Registered? <==> g.waiters[w].Registered?) && (waiter.Parked? <==> g.waiters[w].Parked?)
  {
  }

  /** A waiter that looks finds the gate drained exactly when it is shut with nobody inside, and sleeps otherwise; and
      only the last callback to leave a gate wakes the waiters. */
  lemma LooksAtDoor(g: Gate, d: Door, w: nat)
    requires Inv(g) && Stores(g, d)
    ensures Enabled(g, Check(w)) ==>
              (Stands(Apply(g, Check(w)), w, Returned) <==> d.shut && d.inside == 0)
    ensures Enabled(g, Leave) ==> Apply(g, Leave).leaving == g.leaving + if d.inside == 1 then 1 else 0
  {
  }

  /** When any `retire` has returned, no callback is active, and on no continuation is one ever admitted: the word
      never changes again. */
  lemma {:induction false} RetiredForGood(g: Gate, w: nat, steps: seq<Step>)
    requires Inv(g) && Stands(g, w, Returned) && Legal(g, steps)
    ensures g.Active() == 0 && After(g, steps).state == g.state == CLOSED
    decreases |steps|
  {
    if steps != [] {
      var g1 := Apply(g, steps[0]);
      Keeps(g, steps[0]);
      assert Stands(g1, w, Returned);
      RetiredForGood(g1, w, steps[1..]);
    }
  }

  /** A gate that has been closed admits nobody, even while callbacks are still inside. */
  lemma {:induction false} ClosedOnlyDrains(g: Gate, steps: seq<Step>)
    requires Inv(g) && g.IsClosed() && Legal(g, steps)
    ensures After(g, steps).IsClosed() && After(g, steps).Active() <= g.Active()
    decreases |steps|
  {
    if steps != [] {
      Keeps(g, steps[0]);
      ClosedOnlyDrains(Apply(g, steps[0]), steps[1..]);
    }
  }

  /** A waiter's own way to the end. */
  function Homeward(waiter: Waiter, w: nat): seq<Step> {
    match waiter
    case Called => [Close(w), Register(w), Check(w)]
    case Looping => [Register(w), Check(w)]
    case Registered(_) => [Check(w)]
    case Parked(_) => [Wake(w), Register(w), Check(w)]
    case Returned => []
  }

  /** Once every callback is out and has notified, no waiter is left asleep: each can return by its own steps. */
  lemma DrainedWaiterReturns(g: Gate, w: nat)
    requires Inv(g) && w < |g.waiters| && g.Active() == 0 && g.leaving == 0
    ensures Legal(g, Homeward(g.waiters[w], w)) && Stands(After(g, Homeward(g.waiters[w], w)), w, Returned)
  {
    match g.waiters[w]
    case Registered(_) => CheckReturns(g, w);
    case Called =>
      RegisterReturns(Apply(g, Close(w)), w);
      assert Homeward(Called, w)[1..] == Homeward(Looping, w);
    case Looping => RegisterReturns(g, w);
    case Parked(_) =>
      RegisterReturns(Apply(g, Wake(w)), w);
      assert Homeward(g.waiters[w], w)[1..] == Homeward(Looping, w);
    case _ =>
  }

  lemma CheckReturns(g: Gate, w: nat)
    requires w < |g.waiters| && g.waiters[w].Registered? && g.state == CLOSED
    ensures Legal(g, [Check(w)]) && Stands(After(g, [Check(w)]), w, Returned)
  {
    assert After(g, [Check(w)]) == After(Apply(g, Check(w)), []);
  }

  lemma RegisterReturns(g: Gate, w: nat)
    requires Stands(g, w, Looping) && g.state == CLOSED
    ensures Legal(g, [Register(w), Check(w)]) && Stands(After(g, [Register(w), Check(w)]), w, Returned)
  {
    CheckReturns(Apply(g, Register(w)), w);
    assert [Register(w), Check(w)][1..] == [Check(w)];
  }

  // ----- the operations -----

  class Shared {
    var now: Gate

    constructor ()
      ensures now == START && Inv(now)
    {
      now := START;
    }

    method Take(step: Step)
      requires Inv(now) && Enabled(now, step)
      modifies this
      ensures now == Apply(old(now), step) && Inv(now)
    {
      Keeps(now, step);
      now := Apply(now, step);
    }

    predicate Own(step: Step, w: nat) {
      match step
      case Close(x) => x == w
      case Register(x) => x == w
      case Check(x) => x == w
      case Wake(x) => x == w
      case _ => false
    }

    /** Callbacks and other waiters run for a while; a notification may reach waiter `w`. */
    method OthersRun(w: nat)
      requires Inv(now) && w < |now.waiters|
      modifies this
      ensures Inv(now) && w < |now.waiters|
      ensures now.waiters[w] == old(now.waiters[w]) || now.waiters[w] == Woken(old(now.waiters[w]))
      ensures old(now.IsClosed()) ==> now.IsClosed()
    {
      var n: nat :| true;
      for i := 0 to n
        invariant Inv(now) && w < |now.waiters|
        invariant now.waiters[w] == old(now.waiters[w]) || now.waiters[w] == Woken(old(now.waiters[w]))
        invariant old(now.IsClosed()) ==> now.IsClosed()
      {
        var step: Step :| true;
        if Enabled(now, step) && !Own(step, w) {
          Take(step);
        }
      }
    }

    /** `retire`: close, then register before looking, and sleep only when callbacks are left. */
    method RetireGate(w: nat) returns (returned: bool)
      requires Inv(now) && Stands(now, w, Called)
      modifies this
      ensures Inv(now) && now.IsClosed()
      ensures returned ==> now.state == CLOSED && Stands(now, w, Returned)
      ensures !returned && now.Active() == 0 && now.leaving == 0 ==>
                w < |now.waiters| && now.waiters[w] != Parked(false)
    {
      Take(Close(w));
      var patience: nat :| true;
      for i := 0 to patience
        invariant Inv(now) && Stands(now, w, Looping) && now.IsClosed()
      {
        OthersRun(w);
        Take(Register(w));
        OthersRun(w);
        Take(Check(w));
        if now.waiters[w].Returned? {
          return true;
        }
        OthersRun(w);
        if now.waiters[w] == Parked(false) {
          return false;
        }
        Take(Wake(w));
      }
      returned := false;
    }
  }
}
