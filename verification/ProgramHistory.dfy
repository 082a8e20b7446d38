/** What the history of an invocation tree says of its state, and which starts are admitted. Neither is stated through
    the steps of `ToolProgram`: flags and stages are read off the list of steps, and limits are counts of requests. */
module ProgramHistory {
  import opened JsonValues
  import opened ToolProgram

  // ----- what has happened shows -----

  function Flagged(t: Tree, p: nat): Program {
    if p < |t.programs| then t.programs[p] else ROOT
  }

  lemma HeadOrTail(steps: seq<Step>, step: Step)
    requires steps != []
    ensures step in steps <==> step == steps[0] || step in steps[1..]
  {
    assert steps == [steps[0]] + steps[1..];
  }

  /** A program is cancelled exactly when it was told to stop, and finished exactly when its shutdown returned. */
  lemma {:induction false} StoppedIff(t: Tree, steps: seq<Step>, p: nat)
    requires Legal(t, steps) && p < |After(t, steps).programs|
    ensures After(t, steps).programs[p].cancelled <==> Flagged(t, p).cancelled || Cancel(p) in steps
    ensures After(t, steps).programs[p].finished <==> Flagged(t, p).finished || Finish(p) in steps
    decreases |steps|
  {
    if steps != [] {
      HeadOrTail(steps, Cancel(p));
      HeadOrTail(steps, Finish(p));
      StoppedIff(Apply(t, steps[0]), steps[1..], p);
    }
  }

  /** Some request of the program ended with a result that terminates. */
  predicate KeptTerminating(t: Tree, steps: seq<Step>, p: nat) {
    exists r | 0 <= r < |t.requests| :: t.requests[r].program == p && Finalize(r, true) in steps
  }

  /** And it is closed to further starts by its own results exactly when one of them terminates. */
  lemma {:induction false} TerminatedIff(t: Tree, steps: seq<Step>, p: nat)
    requires Legal(t, steps) && p < |After(t, steps).programs|
    ensures After(t, steps).programs[p].terminated
            <==> Flagged(t, p).terminated || KeptTerminating(After(t, steps), steps, p)
    decreases |steps|
  {
    if steps != [] {
      var s, t1, t2 := steps[0], Apply(t, steps[0]), After(t, steps);
      TerminatedIff(t1, steps[1..], p);
      StepIsOnward(t, s);
      RunIsOnward(t1, steps[1..]);
      forall r ensures Finalize(r, true) in steps <==> s == Finalize(r, true) || Finalize(r, true) in steps[1..] {
        HeadOrTail(steps, Finalize(r, true));
      }
      assert KeptTerminating(t2, steps[1..], p) ==> KeptTerminating(t2, steps, p);
      if s.Finalize? && s.terminate {
        assert t2.requests[s.r].program == t.requests[s.r].program;
      }
    }
  }

  function StageOf(t: Tree, r: nat): Stage {
    if r < |t.requests| then t.requests[r].stage else Asked
  }

  predicate Returned(steps: seq<Step>, r: nat) {
    Finalize(r, true) in steps || Finalize(r, false) in steps
  }

  /** What a request's stage says of the steps taken for it. */
  predicate StageTells(was: Stage, now: Stage, taken: bool, returned: bool, ended: bool, decided: bool) {
    && (now.Asked? <==> was.Asked? && !taken)
    && (now.Finalized? <==> (was.Finalized? || returned) && !ended)
    && (now.Ended? <==> was.Ended? || ended)
    && (now.WasAdmitted() ==> was.WasAdmitted() || decided)
  }

  lemma StepStage(t: Tree, step: Step, r: nat)
    requires Enabled(t, step)
    ensures StageTells(StageOf(t, r), StageOf(Apply(t, step), r), step == TakePermit(r), Returned([step], r),
                       step == End(r), step == Decide(r))
  {
    match step
    case Finalize(x, terminate) => assert Finalize(x, terminate) in [step];
    case _ =>
  }

  /** A request is waiting, has its result, or is over by the steps taken for it. */
  lemma {:induction false} StageIff(t: Tree, steps: seq<Step>, r: nat)
    requires Legal(t, steps)
    ensures StageTells(StageOf(t, r), StageOf(After(t, steps), r), TakePermit(r) in steps, Returned(steps, r),
                       End(r) in steps, Decide(r) in steps)
    decreases |steps|
  {
    if steps != [] {
      StepStage(t, steps[0], r);
      StageIff(Apply(t, steps[0]), steps[1..], r);
      HeadOrTail(steps, TakePermit(r));
      HeadOrTail(steps, Finalize(r, true));
      HeadOrTail(steps, Finalize(r, false));
      HeadOrTail(steps, End(r));
      HeadOrTail(steps, Decide(r));
    }
  }

  predicate Retains(t: Tree, p: nat, r: nat) {
    p < |t.programs| && r in t.programs[p].requests
  }

  predicate AdmittedTo(t: Tree, p: nat, r: nat) {
    r < |t.requests| && t.requests[r].program == p && t.requests[r].stage.WasAdmitted()
  }

  /** A program retains the requests it admitted, until they are disposed of. */
  lemma {:induction false} RetainsIff(t: Tree, steps: seq<Step>, p: nat, r: nat)
    requires Legal(t, steps) && Dispose(p, r) !in steps
    requires Retains(t, p, r) <==> AdmittedTo(t, p, r)
    requires Formed(t)
    ensures Retains(After(t, steps), p, r) <==> AdmittedTo(After(t, steps), p, r)
    decreases |steps|
  {
    if steps != [] {
      HeadOrTail(steps, Dispose(p, r));
      KeepsFormed(t, steps[0]);
      RetainsIff(Apply(t, steps[0]), steps[1..], p, r);
    }
  }

  /** Disposing of a request makes room for another one. */
  lemma DisposeMakesRoom(t: Tree, p: nat, r: nat)
    requires Enabled(t, Dispose(p, r)) && Retains(t, p, r)
    ensures var t' := Apply(t, Dispose(p, r));
            && |t'.programs[p].requests| == |t.programs[p].requests| - 1
            && forall q, x :: Retains(t', q, x) <==> Retains(t, q, x) && !(q == p && x == r)
  {
    var left := Apply(t, Dispose(p, r)).programs[p].requests;
    assert left + {r} == t.programs[p].requests;
  }

  // ----- which starts are admitted -----

  /** The requests of `p`, or of all programs, that have been let in and are not over. */
  function InFlight(requests: seq<Request>, p: Option<nat>): nat {
    if requests == [] then 0
    else
      var rest, x := requests[..|requests| - 1], requests[|requests| - 1];
      InFlight(rest, p) + if p.None? then TreeShare(x.stage) else if x.program == p.value then Share(x.stage) else 0
  }

  /** A start holds a permit of its program from its first step on, and one of the tree from its second. */
  function Share(stage: Stage): nat {
    match stage
    case Asked => 0
    case HasPermit => 1
    case HasBoth => 1
    case Running => 1
    case Finalized => 1
    case Ended => 0
    case Refused => 0
  }

  function TreeShare(stage: Stage): nat {
    if stage.HasPermit? then 0 else Share(stage)
  }

  lemma {:induction false} InFlightIsCount(requests: seq<Request>, p: nat)
    ensures InFlight(requests, Some(p)) == Count(requests, HoldsIn(p))
    ensures InFlight(requests, None) == Count(requests, HoldsTree())
  {
    if requests != [] {
      InFlightIsCount(requests[..|requests| - 1], p);
    }
  }

  /** A running call can always open a program of its own, in which nothing runs yet. */
  lemma RunningMayOpen(t: Tree, r: nat)
    requires Inv(t) && At(t, r, Running)
    ensures Enabled(t, Open(r))
    ensures var t', p := Apply(t, Open(r)), |t.programs|;
            && t'.programs[..p] == t.programs && |t'.programs| == p + 1 && t'.requests == t.requests
            && t'.programs[p].owner == Some(r) && t'.programs[p].requests == {}
            && Enabled(t', Ask(p)) && InFlight(t'.requests, Some(p)) == 0
  {
    NoneHold(t.requests, |t.programs|);
    InFlightIsCount(t.requests, |t.programs|);
  }

  /** A permit is there exactly when fewer than eight requests are in flight. */
  lemma PermitIff(t: Tree, r: nat)
    requires Inv(t) && At(t, r, Asked)
    ensures Apply(t, TakePermit(r)).requests[r].stage
            == if InFlight(t.requests, Some(t.requests[r].program)) < 8 then HasPermit else Refused
  {
    InFlightIsCount(t.requests, t.requests[r].program);
  }

  lemma TreePermitIff(t: Tree, r: nat)
    requires Inv(t) && At(t, r, HasPermit)
    ensures Apply(t, TakeTreePermit(r)).requests[r].stage
            == if InFlight(t.requests, None) < 8 then HasBoth else Refused
  {
    InFlightIsCount(t.requests, 0);
  }

  predicate IsOpen(program: Program) {
    !program.cancelled && !program.terminated
  }

  /** Under the lock a start is admitted exactly while its program retains fewer than sixteen requests, the tree has
      started fewer than 128, and the program is open. One that the second look refuses has used up a start. */
  lemma DecideIff(t: Tree, r: nat)
    requires Inv(t) && At(t, r, HasBoth)
    ensures
      var t', program := Apply(t, Decide(r)), t.programs[t.requests[r].program];
      var room := |program.requests| < 16 && t.starts < 128;
      && t'.requests[r].stage == (if room && IsOpen(program) then Running else Refused)
      && t'.starts == t.starts + (if room then 1 else 0)
  {
  }

  /** All the limits on a start of `p`. */
  predicate Admissible(t: Tree, p: nat)
    requires p < |t.programs|
  {
    && IsOpen(t.programs[p])
    && InFlight(t.requests, Some(p)) < 8 && InFlight(t.requests, None) < 8
    && |t.programs[p].requests| < 16 && t.starts < 128
  }

  /** What an undisturbed start leaves: it runs, or nothing but its refusal remains of it. */
  ghost function Started(t: Tree, p: nat): Tree
    requires Inv(t) && p < |t.programs|
  {
    InFlightIsCount(t.requests, p);
    if Admissible(t, p) then
      var program, r := t.programs[p], |t.requests|;
      Tree(t.programs[p := program.(permits := program.permits - 1, requests := program.requests + {r})],
           t.requests + [Request(p, Running)], t.permits - 1, t.starts + 1)
    else t.(requests := t.requests + [Request(p, Refused)])
  }

  lemma InFlightAppend(requests: seq<Request>, x: Request, p: Option<nat>)
    requires x.stage.Asked? || x.stage.HasPermit?
    ensures InFlight(requests + [x], p)
            == InFlight(requests, p) + if x.stage.HasPermit? && p == Some(x.program) then 1 else 0
  {
    assert (requests + [x])[..|requests|] == requests;
  }

  lemma FirstStep(t: Tree, step: Step, rest: seq<Step>)
    requires Enabled(t, step) && Legal(Apply(t, step), rest)
    ensures Legal(t, [step] + rest) && After(t, [step] + rest) == After(Apply(t, step), rest)
  {
    assert ([step] + rest)[1..] == rest;
  }

  /** A start past its entry check that waits for nothing but its own steps: it is admitted if and only if every limit
      allows it, and else the tree is as it was, but for one more refused request. */
  lemma StartIff(t: Tree, p: nat) returns (steps: seq<Step>)
    requires Inv(t) && p < |t.programs| && IsOpen(t.programs[p])
    ensures Legal(t, steps) && |steps| >= 2 && steps[0] == Ask(p)
    ensures forall i | 1 <= i < |steps| :: Concerns(steps[i], |t.requests|)
    ensures After(t, steps) == Started(t, p)
  {
    var rest: seq<Step> := [];
    if InFlight(t.requests, Some(p)) < 8 {
      rest := WithPermit(t, p);
    } else {
      WithoutPermit(t, p);
    }
    FirstStep(Apply(t, Ask(p)), TakePermit(|t.requests|), rest);
    FirstStep(t, Ask(p), [TakePermit(|t.requests|)] + rest);
    steps := [Ask(p)] + ([TakePermit(|t.requests|)] + rest);
  }

  lemma WithoutPermit(t: Tree, p: nat)
    requires Inv(t) && p < |t.programs| && IsOpen(t.programs[p]) && InFlight(t.requests, Some(p)) >= 8
    ensures Enabled(Apply(t, Ask(p)), TakePermit(|t.requests|))
    ensures Apply(Apply(t, Ask(p)), TakePermit(|t.requests|)) == Started(t, p)
  {
    var r, t1 := |t.requests|, Apply(t, Ask(p));
    Keeps(t, Ask(p));
    InFlightAppend(t.requests, Request(p, Asked), Some(p));
    PermitIff(t1, r);
    assert t1.requests[r := Request(p, Refused)] == t.requests + [Request(p, Refused)];
  }

  /** The tree after a start of `p` took a permit of its program. */
  function Permitted(t: Tree, p: nat): Tree
    requires p < |t.programs| && t.programs[p].permits > 0
  {
    var program := t.programs[p];
    Tree(t.programs[p := program.(permits := program.permits - 1)], t.requests + [Request(p, HasPermit)],
         t.permits, t.starts)
  }

  /** And one of the tree. */
  function BothPermitted(t: Tree, p: nat): Tree
    requires p < |t.programs| && t.programs[p].permits > 0 && t.permits > 0
  {
    Permitted(t, p).(requests := t.requests + [Request(p, HasBoth)], permits := t.permits - 1)
  }

  /** A refusal gives back what the start held. */
  lemma GivesBack(t: Tree, p: nat)
    requires p < |t.programs| && t.programs[p].permits > 0
    ensures var refused := t.(requests := t.requests + [Request(p, Refused)]);
            && Settle(Permitted(t, p), |t.requests|, Refused) == refused
            && (t.permits > 0 ==> Settle(BothPermitted(t, p), |t.requests|, Refused) == refused)
  {
    var r, x, program := |t.requests|, Request(p, Refused), t.programs[p];
    assert t.programs[p := program.(permits := program.permits - 1)][p := program] == t.programs;
    assert (t.requests + [Request(p, HasPermit)])[r := x] == t.requests + [x];
    assert (t.requests + [Request(p, HasBoth)])[r := x] == t.requests + [x];
  }

  lemma WithPermit(t: Tree, p: nat) returns (steps: seq<Step>)
    requires Inv(t) && p < |t.programs| && IsOpen(t.programs[p]) && InFlight(t.requests, Some(p)) < 8
    ensures t.programs[p].permits > 0 && Enabled(Apply(t, Ask(p)), TakePermit(|t.requests|))
    ensures Apply(Apply(t, Ask(p)), TakePermit(|t.requests|)) == Permitted(t, p)
    ensures Legal(Permitted(t, p), steps) && forall step | step in steps :: Concerns(step, |t.requests|)
    ensures After(Permitted(t, p), steps) == Started(t, p)
  {
    var r, t1 := |t.requests|, Apply(t, Ask(p));
    InFlightIsCount(t.requests, p);
    var t2 := Permitted(t, p);
    assert Apply(t1, TakePermit(r)) == t2 by {
      assert t1.requests[r := Request(p, HasPermit)] == t2.requests;
    }
    var rest: seq<Step> := [];
    if InFlight(t.requests, None) < 8 {
      var t3 := BothPermitted(t, p);
      assert Apply(t2, TakeTreePermit(r)) == t3 by {
        assert t2.requests[r := Request(p, HasBoth)] == t3.requests;
      }
      DecidedIs(t, p);
      rest := [Decide(r)];
      FirstStep(t3, Decide(r), []);
      assert [Decide(r)] + [] == rest;
    } else {
      GivesBack(t, p);
    }
    steps := [TakeTreePermit(r)] + rest;
    FirstStep(t2, TakeTreePermit(r), rest);
  }

  lemma DecidedIs(t: Tree, p: nat)
    requires Inv(t) && p < |t.programs| && IsOpen(t.programs[p]) && t.programs[p].permits > 0 && t.permits > 0
    requires InFlight(t.requests, Some(p)) < 8 && InFlight(t.requests, None) < 8
    ensures Enabled(BothPermitted(t, p), Decide(|t.requests|))
    ensures Apply(BothPermitted(t, p), Decide(|t.requests|)) == Started(t, p)
  {
    var r, t3, program := |t.requests|, BothPermitted(t, p), t.programs[p];
    if Admissible(t, p) {
      var held := program.(permits := program.permits - 1);
      assert t3.requests[r := Request(p, Running)] == t.requests + [Request(p, Running)];
      assert t.programs[p := held][p := held.(requests := program.requests + {r})]
          == t.programs[p := held.(requests := program.requests + {r})];
    } else {
      GivesBack(t, p);
    }
  }
}
