// Every rollout comes to an end: a measure that no tick raises and every effective tick
// lowers by one.

module Termination {
  import opened Options
  import opened CanaryStatus
  import opened Analysis
  import opened Cluster
  import opened ConfigTracker
  import opened Tick
  import opened Moves
  import opened RouteSafety
  import opened PromotionIntegrity
  import opened Ramp

  /** The status has the target on record. */
  predicate Recorded(w: World) {
    !TargetChanged(w) && !ConfigsChanged(w)
  }

  predicate StoresMirror(cfg: Config) {
    cfg.provider.Mesh? && cfg.provider.storesMirror
  }

  /** A configuration whose rollouts can get to the promotion. */
  predicate WellFormed(cfg: Config) {
    && !cfg.skipAnalysis
    && (IsProgressive(cfg) ==> Climbs(cfg) && (cfg.mirror ==> StoresMirror(cfg)))
  }

  predicate OnTrack(cfg: Config, w: World) {
    && w.primary.Some? && Recorded(w)
    && Balanced(cfg, w.routes) && (w.routes.mirrored ==> StoresMirror(cfg))
    && 0 <= w.status.iterations && (IsABTest(cfg) ==> w.status.iterations <= Iterations(cfg))
  }

  /** Under analysis, or held back by a confirm-rollout hook. */
  predicate InRollout(cfg: Config, w: World) {
    w.status.phase == Progressing || (w.status.phase == Waiting && ConfirmRollout in cfg.hooks)
  }

  /** The passing ticks left before promotion, the promoting one included. */
  function Left(cfg: Config, w: World): nat
    requires WellFormed(cfg) && OnTrack(cfg, w)
  {
    if IsProgressive(cfg) then RampLeft(cfg, w.routes)
    else if IsABTest(cfg) then Iterations(cfg) - w.status.iterations + 1
    else Max(Iterations(cfg) + 1 - w.status.iterations, 0) + 1
  }

  /** The failing ticks left before the rollback. */
  function Patience(cfg: Config, w: World): nat {
    Max(Threshold(cfg) - w.status.failedChecks, 0)
  }

  function Measure(cfg: Config, w: World): nat
    requires WellFormed(cfg) && OnTrack(cfg, w)
  {
    Patience(cfg, w) + Left(cfg, w)
  }

  ghost predicate NotRaised(cfg: Config, w: World, v: World)
    requires WellFormed(cfg) && OnTrack(cfg, w)
  {
    InRollout(cfg, v) ==> OnTrack(cfg, v) && Measure(cfg, v) <= Measure(cfg, w)
  }

  ghost function MeasureLaw(cfg: Config, w: World): Contract
    requires WellFormed(cfg) && OnTrack(cfg, w)
  {
    Contract((v: World) => true, (c: Call) => true, (v: World) => NotRaised(cfg, w, v))
  }

  // ---------------------------------------------------------------------------
  // No tick raises the measure
  // ---------------------------------------------------------------------------

  /** Only traffic, iterations and clocks may differ. */
  predicate SameRecords(w: World, v: World) {
    && v.target == w.target && v.primary == w.primary
    && v.status.phase == w.status.phase && v.status.failedChecks == w.status.failedChecks
    && v.status.lastAppliedSpec == w.status.lastAppliedSpec
    && v.status.lastPromotedSpec == w.status.lastPromotedSpec
    && v.status.trackedConfigs == w.status.trackedConfigs
  }

  /** What the router makes of new routes. */
  function StoredRoutes(cfg: Config, w: World, r: Routes): Routes {
    Apply(cfg, SetRoutes(r), w).routes
  }

  lemma RoutingKeepsRecords(cfg: Config, w: World, r: Routes)
    ensures var v := Apply(cfg, SetRoutes(r), w); SameRecords(w, v) && v.status.iterations == w.status.iterations
    ensures var v := Apply(cfg, SetStatusWeight(r.canary), Apply(cfg, SetRoutes(r), w));
            SameRecords(w, v) && v.status.iterations == w.status.iterations && v.routes == StoredRoutes(cfg, w, r)
  {
  }

  lemma CountingKeepsRecords(cfg: Config, w: World, n: int)
    ensures var v := Apply(cfg, SetStatusIterations(n), w);
            SameRecords(w, v) && v.status.iterations == n && v.routes == w.routes
  {
  }

  lemma ClimbLowers(cfg: Config, w: World)
    requires WellFormed(cfg) && OnTrack(cfg, w) && IsProgressive(cfg) && w.routes.canary < MaxWeight(cfg)
    ensures var r := Advanced(cfg, w.routes);
            var v := Apply(cfg, SetRoutes(r), w);
            && OnTrack(cfg, v) && Measure(cfg, v) == Measure(cfg, w) - 1
            && OnTrack(cfg, Apply(cfg, SetStatusWeight(r.canary), v))
            && Measure(cfg, Apply(cfg, SetStatusWeight(r.canary), v)) == Measure(cfg, w) - 1
  {
    var r := Advanced(cfg, w.routes);
    StepIsPositive(cfg, w.routes.canary);
    AdvanceBalances(cfg, w.routes);
    RoutingKeepsRecords(cfg, w, r);
    assert StoredRoutes(cfg, w, r) == r;
  }

  lemma SwitchLowers(cfg: Config, w: World)
    requires WellFormed(cfg) && OnTrack(cfg, w) && !IsProgressive(cfg) && !cfg.provider.Kubernetes?
    requires w.status.iterations <= Iterations(cfg) && (IsABTest(cfg) ==> w.status.iterations < Iterations(cfg))
    ensures var v := Apply(cfg, SetRoutes(ALL_TO_CANARY), w);
            var counter := SetStatusIterations(w.status.iterations + 1);
            && OnTrack(cfg, v) && Measure(cfg, v) == Measure(cfg, w)
            && OnTrack(cfg, Apply(cfg, counter, v)) && Measure(cfg, Apply(cfg, counter, v)) == Measure(cfg, w) - 1
  {
    var v := Apply(cfg, SetRoutes(ALL_TO_CANARY), w);
    RoutingKeepsRecords(cfg, w, ALL_TO_CANARY);
    CountingKeepsRecords(cfg, v, w.status.iterations + 1);
  }

  lemma AdvanceLowers(cfg: Config, inp: Input, w: World, r: Routes, counter: Call)
    requires WellFormed(cfg) && OnTrack(cfg, w) && Analysing(w.status.phase)
    requires Justified(cfg, inp, w, AdvanceTo(r, counter))
    ensures var v := Apply(cfg, SetRoutes(r), w);
            && OnTrack(cfg, v) && Measure(cfg, v) <= Measure(cfg, w)
            && OnTrack(cfg, Apply(cfg, counter, v))
            && Apply(cfg, counter, v).status.phase == w.status.phase
            && Measure(cfg, Apply(cfg, counter, v)) == Measure(cfg, w) - 1
  {
    AdvanceIsDue(cfg, inp, w, r, counter);
    if IsProgressive(cfg) {
      ClimbLowers(cfg, w);
    } else {
      SwitchLowers(cfg, w);
    }
  }

  lemma GateDoesNotRaise(cfg: Config, w: World, move: Move)
    requires WellFormed(cfg) && OnTrack(cfg, w) && InRollout(cfg, w)
    requires move.AwaitRollout? || move.Wake? || move.AwaitPromotion? || move.PromoteCanary?
    ensures Meets(MeasureLaw(cfg, w), AnyFault, cfg, ProgramOf(move), w)
  {
    var k := MeasureLaw(cfg, w);
    match move {
      case AwaitRollout => MeetsOne(k, AnyFault, cfg, SetStatusPhase(Waiting), w);
      case Wake => MeetsTwo(k, AnyFault, cfg, SetStatusPhase(Progressing), ScaleFromZero, w);
      case AwaitPromotion => MeetsOne(k, AnyFault, cfg, SetStatusPhase(WaitingPromotion), w);
      case PromoteCanary => PromotionMeets(k, AnyFault, cfg, w);
    }
  }

  lemma CountDoesNotRaise(cfg: Config, inp: Input, w: World, move: Move)
    requires WellFormed(cfg) && OnTrack(cfg, w) && w.status.phase == Progressing
    requires Justified(cfg, inp, w, move) && (move.CountFailure? || move.Count?)
    ensures Meets(MeasureLaw(cfg, w), AnyFault, cfg, ProgramOf(move), w)
  {
    match move {
      case CountFailure(n) => MeetsOne(MeasureLaw(cfg, w), AnyFault, cfg, SetStatusFailedChecks(n), w);
      case Count(n) => MeetsOne(MeasureLaw(cfg, w), AnyFault, cfg, SetStatusIterations(n), w);
    }
  }

  lemma MirroringDoesNotRaise(cfg: Config, inp: Input, w: World, n: int)
    requires WellFormed(cfg) && OnTrack(cfg, w) && w.status.phase == Progressing
    requires Justified(cfg, inp, w, MirrorAndCount(n))
    ensures Meets(MeasureLaw(cfg, w), AnyFault, cfg, ProgramOf(MirrorAndCount(n)), w)
  {
    MeetsBoth(MeasureLaw(cfg, w), AnyFault, cfg,
              SetRoutes(Routes(TOTAL_WEIGHT, 0, true)), SetStatusIterations(n), w);
  }

  lemma AdvanceDoesNotRaise(cfg: Config, inp: Input, w: World, r: Routes, counter: Call)
    requires WellFormed(cfg) && OnTrack(cfg, w) && w.status.phase == Progressing
    requires Justified(cfg, inp, w, AdvanceTo(r, counter))
    ensures Meets(MeasureLaw(cfg, w), AnyFault, cfg, ProgramOf(AdvanceTo(r, counter)), w)
  {
    AdvanceLowers(cfg, inp, w, r, counter);
    MeetsTwo(MeasureLaw(cfg, w), AnyFault, cfg, SetRoutes(r), counter, w);
  }

  lemma MoveDoesNotRaise(cfg: Config, inp: Input, w: World, move: Move)
    requires WellFormed(cfg) && OnTrack(cfg, w) && InRollout(cfg, w)
    requires Justified(cfg, inp, w, move) && !move.RollBack? && !move.Start?
    ensures Meets(MeasureLaw(cfg, w), AnyFault, cfg, ProgramOf(move), w)
  {
    if move.CountFailure? || move.Count? {
      CountDoesNotRaise(cfg, inp, w, move);
    } else if move.MirrorAndCount? {
      MirroringDoesNotRaise(cfg, inp, w, move.iterations);
    } else if move.AdvanceTo? {
      AdvanceDoesNotRaise(cfg, inp, w, move.routes, move.counter);
    } else if move.AwaitRollout? || move.Wake? || move.AwaitPromotion? || move.PromoteCanary? {
      GateDoesNotRaise(cfg, w, move);
    } else if move.Rest? {
    }
  }

  lemma RollBackLeaves(cfg: Config, w: World)
    ensures Exec(cfg, ProgramOf(RollBack), [], w) ==
            Apply(cfg, SyncStatus(Failed), Apply(cfg, ScaleToZero, Apply(cfg, SetRoutes(ALL_TO_PRIMARY), w)))
  {
    ExecOne(cfg, ProgramOf(RollBack), [], w);
    ExecTwo(cfg, ScaleToZero, SyncStatus(Failed), Apply(cfg, SetRoutes(ALL_TO_PRIMARY), w));
  }

  /** A rollback stops after its traffic change took effect and before phase Failed is
      written: the change was reported as failed, scaling down was, or the write is refused. */
  predicate Torn(faults: seq<Outcome>) {
    || Head(faults) == Lost
    || (Head(faults) == Done && (Head(Tail(faults)) != Done || Head(Tail(Tail(faults))) == Refused))
  }

  /** How a rollback can end: not begun, torn, or with phase Failed. */
  lemma RollBackEnds(cfg: Config, w: World, faults: seq<Outcome>)
    ensures var v := Exec(cfg, ProgramOf(RollBack), faults, w);
            if Head(faults) == Refused then v == w
            else if Torn(faults) then
              v.status == w.status && v.routes == StoredRoutes(cfg, w, ALL_TO_PRIMARY)
              && v.target == w.target && v.primary == w.primary
            else v.status.phase == Failed
  {
    var p := ProgramOf(RollBack);
    ExecOne(cfg, p, faults, w);
    if Head(faults) == Done {
      var w1 := Apply(cfg, SetRoutes(ALL_TO_PRIMARY), w);
      ExecOne(cfg, p.ok, Tail(faults), w1);
      if Head(Tail(faults)) == Done {
        ExecOne(cfg, p.ok.ok, Tail(Tail(faults)), Apply(cfg, ScaleToZero, w1));
      }
    }
  }

  /** A torn rollback keeps the rollout on track; only where the ramp stands is lost. */
  lemma TornRollBackKeepsTrack(cfg: Config, w: World, faults: seq<Outcome>)
    requires WellFormed(cfg) && OnTrack(cfg, w) && Torn(faults)
    ensures var v := Exec(cfg, ProgramOf(RollBack), faults, w);
            && OnTrack(cfg, v) && v.status.phase == w.status.phase && Patience(cfg, v) == Patience(cfg, w)
            && Left(cfg, v) == if IsProgressive(cfg) then RampLeft(cfg, ALL_TO_PRIMARY) else Left(cfg, w)
  {
    RollBackEnds(cfg, w, faults);
  }

  /** Exactly when a rollback raises the measure of a progressive rollout: it is torn, and the
      ramp had got further than where it starts. */
  lemma RollBackRaisesExactly(cfg: Config, w: World, faults: seq<Outcome>)
    requires WellFormed(cfg) && OnTrack(cfg, w) && w.status.phase == Progressing && IsProgressive(cfg)
    ensures !NotRaised(cfg, w, Exec(cfg, ProgramOf(RollBack), faults, w)) <==>
            Torn(faults) && RampLeft(cfg, w.routes) < RampLeft(cfg, ALL_TO_PRIMARY)
  {
    RollBackEnds(cfg, w, faults);
    if Torn(faults) {
      TornRollBackKeepsTrack(cfg, w, faults);
    }
  }

  /** From any weight the ramp has climbed to, that is: exactly if it is torn. */
  lemma TornRollBackRaises(cfg: Config, w: World, faults: seq<Outcome>, k: nat)
    requires WellFormed(cfg) && OnTrack(cfg, w) && w.status.phase == Progressing && IsProgressive(cfg)
    requires k > 0 && w.routes == Climb(cfg, ALL_TO_PRIMARY, k)
    requires forall i: nat | i < k :: Climb(cfg, ALL_TO_PRIMARY, i).canary < MaxWeight(cfg)
    ensures !NotRaised(cfg, w, Exec(cfg, ProgramOf(RollBack), faults, w)) <==> Torn(faults)
  {
    RollBackRaisesExactly(cfg, w, faults);
    ClimbUsesUp(cfg, ALL_TO_PRIMARY, k);
  }

  /** The tick begins a rollback that is torn, and the strategy has a ramp to lose. */
  ghost predicate TearsRamp(cfg: Config, inp: Input, faults: seq<Outcome>, w: World) {
    IsProgressive(cfg) && TickMove(cfg, inp, w).RollBack? && inp.bootstrapped && Torn(faults)
  }

  lemma RollBackDoesNotRaise(cfg: Config, w: World, faults: seq<Outcome>)
    requires WellFormed(cfg) && OnTrack(cfg, w) && InRollout(cfg, w)
    requires IsProgressive(cfg) ==> !Torn(faults)
    ensures NotRaised(cfg, w, Exec(cfg, ProgramOf(RollBack), faults, w))
  {
    RollBackEnds(cfg, w, faults);
    if Torn(faults) {
      TornRollBackKeepsTrack(cfg, w, faults);
    }
  }

  /** No other tick raises the measure, whatever fails. */
  lemma TickDoesNotRaise(cfg: Config, inp: Input, faults: seq<Outcome>, w: World)
    requires WellFormed(cfg) && OnTrack(cfg, w) && InRollout(cfg, w) && !TearsRamp(cfg, inp, faults, w)
    ensures NotRaised(cfg, w, Exec(cfg, TickProgram(cfg, inp, w), faults, w))
  {
    var p, move := TickProgram(cfg, inp, w), TickMove(cfg, inp, w);
    TickMoveIsJustified(cfg, inp, w);
    if p != Halt {
      assert p == ProgramOf(move);
      if move.RollBack? {
        RollBackDoesNotRaise(cfg, w, faults);
      } else {
        MoveDoesNotRaise(cfg, inp, w, move);
        AnyFaultIsWithin(p, faults);
        MeetsIsSound(MeasureLaw(cfg, w), AnyFault, cfg, p, faults, w);
      }
    }
  }

  /** What such a tick costs at most: one ramp. */
  lemma TearingTick(cfg: Config, inp: Input, faults: seq<Outcome>, w: World)
    requires WellFormed(cfg) && OnTrack(cfg, w) && InRollout(cfg, w) && TearsRamp(cfg, inp, faults, w)
    ensures var v := Exec(cfg, TickProgram(cfg, inp, w), faults, w);
            OnTrack(cfg, v) && Measure(cfg, v) <= Measure(cfg, w) + RampLeft(cfg, ALL_TO_PRIMARY)
    ensures !Effective(cfg, inp, faults, w)
  {
    TickMoveIsJustified(cfg, inp, w);
    assert TickProgram(cfg, inp, w) == ProgramOf(RollBack);
    TornRollBackKeepsTrack(cfg, w, faults);
    if Within(NoFault, ProgramOf(RollBack), faults) {
      WithoutFaultsIsWhole(faults);
    }
  }

  lemma WithoutFaultsIsWhole(faults: seq<Outcome>)
    requires Within(NoFault, ProgramOf(RollBack), faults)
    ensures !Torn(faults)
  {
    var p := ProgramOf(RollBack);
    assert Within(NoFault, p.ok, Tail(faults));
    assert Within(NoFault, p.ok.ok, Tail(Tail(faults)));
  }

  // ---------------------------------------------------------------------------
  // An effective tick lowers it
  // ---------------------------------------------------------------------------

  /** Nothing makes the tick stutter: reads succeed, the workloads are not still rolling
      out, no hook that gates the rollout withholds its approval, and no call fails. */
  ghost predicate Effective(cfg: Config, inp: Input, faults: seq<Outcome>, w: World) {
    && w.status.phase == Progressing
    && inp.bootstrapped && inp.reconciled && inp.routesRead && inp.primaryReady && !inp.readiness.NotYet?
    && AllApprove(cfg, inp, ConfirmRollout) && AllApprove(cfg, inp, ConfirmTrafficIncrease)
    && Within(NoFault, TickProgram(cfg, inp, w), faults)
  }

  lemma CountLowers(cfg: Config, w: World, v: World)
    requires WellFormed(cfg) && OnTrack(cfg, w) && IsBlueGreen(cfg) && w.status.iterations <= Iterations(cfg)
    requires SameRecords(w, v) && v.status.iterations == w.status.iterations + 1
    requires Balanced(cfg, v.routes) && (v.routes.mirrored ==> StoresMirror(cfg))
    ensures OnTrack(cfg, v) && Measure(cfg, v) == Measure(cfg, w) - 1
  {
  }

  lemma MoveLowers(cfg: Config, inp: Input, w: World, move: Move)
    requires WellFormed(cfg) && OnTrack(cfg, w) && w.status.phase == Progressing
    requires Justified(cfg, inp, w, move)
    requires move.Count? || move.MirrorAndCount? || move.CountFailure? || move.AdvanceTo?
    ensures var v := Exec(cfg, ProgramOf(move), [], w);
            v.status.phase == w.status.phase && OnTrack(cfg, v) && Measure(cfg, v) == Measure(cfg, w) - 1
  {
    if move.CountFailure? {
      ExecOne(cfg, ProgramOf(move), [], w);
    } else if move.AdvanceTo? {
      ExecTwo(cfg, SetRoutes(move.routes), move.counter, w);
      AdvanceLowers(cfg, inp, w, move.routes, move.counter);
    } else {
      CountIsDue(cfg, inp, w, move);
      CountingExec(cfg, w, move);
      var r := Routes(TOTAL_WEIGHT, 0, true);
      RoutingKeepsRecords(cfg, w, r);
      var u := if move.Count? then w else Apply(cfg, SetRoutes(r), w);
      CountingKeepsRecords(cfg, u, move.iterations);
      CountLowers(cfg, w, Apply(cfg, SetStatusIterations(move.iterations), u));
    }
  }

  lemma LeavingMoves(cfg: Config, w: World, move: Move)
    requires move.RollBack? || move.AwaitPromotion? || move.PromoteCanary?
    ensures Exec(cfg, ProgramOf(move), [], w).status.phase in {Failed, WaitingPromotion, Promoting}
  {
    match move {
      case RollBack => RollBackLeaves(cfg, w);
      case AwaitPromotion => ExecOne(cfg, ProgramOf(move), [], w);
      case PromoteCanary => PromotionExec(cfg, w);
    }
  }

  /** The moves of an effective tick: there is always something to do. */
  lemma EffectiveMoves(cfg: Config, inp: Input, faults: seq<Outcome>, w: World)
    requires WellFormed(cfg) && OnTrack(cfg, w) && Effective(cfg, inp, faults, w)
    ensures var move := TickMove(cfg, inp, w);
            && TickProgram(cfg, inp, w) == ProgramOf(move)
            && (|| move.Count? || move.MirrorAndCount? || move.CountFailure? || move.AdvanceTo?
                || move.RollBack? || move.AwaitPromotion? || move.PromoteCanary?)
  {
    if IsProgressive(cfg) {
      StepIsPositive(cfg, w.routes.canary);
    }
  }

  /** An effective tick ends the analysis or lowers the measure by exactly one. */
  lemma EffectiveTickLowers(cfg: Config, inp: Input, faults: seq<Outcome>, w: World)
    requires WellFormed(cfg) && OnTrack(cfg, w) && Effective(cfg, inp, faults, w)
    ensures var v := Exec(cfg, TickProgram(cfg, inp, w), faults, w);
            || v.status.phase in {Failed, WaitingPromotion, Promoting}
            || (v.status.phase == Progressing && OnTrack(cfg, v) && Measure(cfg, v) == Measure(cfg, w) - 1)
  {
    var move := TickMove(cfg, inp, w);
    EffectiveMoves(cfg, inp, faults, w);
    TickMoveIsJustified(cfg, inp, w);
    NothingFails(cfg, ProgramOf(move), faults, w);
    if move.RollBack? || move.AwaitPromotion? || move.PromoteCanary? {
      LeavingMoves(cfg, w, move);
    } else {
      MoveLowers(cfg, inp, w, move);
    }
  }

  // ---------------------------------------------------------------------------
  // Every run
  // ---------------------------------------------------------------------------

  /** A run of ticks without edits that stays in the rollout. */
  ghost predicate StaysInRollout(cfg: Config, es: seq<Event>, w: World) {
    && InRollout(cfg, Run(cfg, es, w))
    && (es != [] ==> es[|es| - 1].Advance? && StaysInRollout(cfg, es[..|es| - 1], w))
  }

  /** The ticks that begin a rollback and lose the ramp. */
  ghost function TearingTicks(cfg: Config, es: seq<Event>, w: World): nat {
    if es == [] then 0
    else
      var init, e := es[..|es| - 1], es[|es| - 1];
      TearingTicks(cfg, init, w) +
      if e.Advance? && TearsRamp(cfg, e.inp, e.faults, Run(cfg, init, w)) then 1 else 0
  }

  /** The advances a torn rollback can cost. */
  function WholeRamp(cfg: Config): nat
    requires WellFormed(cfg)
  {
    if IsProgressive(cfg) then RampLeft(cfg, ALL_TO_PRIMARY) else 0
  }

  ghost function EffectiveTicks(cfg: Config, es: seq<Event>, w: World): nat {
    if es == [] then 0
    else
      var init, e := es[..|es| - 1], es[|es| - 1];
      EffectiveTicks(cfg, init, w) +
      if e.Advance? && Effective(cfg, e.inp, e.faults, Run(cfg, init, w)) then 1 else 0
  }

  /** What the torn rollbacks of a run can cost. */
  ghost function Losses(cfg: Config, es: seq<Event>, w: World): nat
    requires WellFormed(cfg)
  {
    if es == [] then 0
    else
      var init, e := es[..|es| - 1], es[|es| - 1];
      Losses(cfg, init, w) +
      if e.Advance? && TearsRamp(cfg, e.inp, e.faults, Run(cfg, init, w)) then WholeRamp(cfg) else 0
  }

  lemma OneMoreRamp(n: nat, ramp: nat)
    ensures (n + 1) * ramp == n * ramp + ramp
  {
  }

  lemma {:induction false} LossesAddUp(cfg: Config, es: seq<Event>, w: World)
    requires WellFormed(cfg)
    ensures Losses(cfg, es, w) == TearingTicks(cfg, es, w) * WholeRamp(cfg)
  {
    if es != [] {
      LossesAddUp(cfg, es[..|es| - 1], w);
      OneMoreRamp(TearingTicks(cfg, es[..|es| - 1], w), WholeRamp(cfg));
    }
  }

  lemma {:induction false} BooksBalance(cfg: Config, es: seq<Event>, w: World)
    requires WellFormed(cfg) && OnTrack(cfg, w) && StaysInRollout(cfg, es, w)
    ensures OnTrack(cfg, Run(cfg, es, w))
    ensures EffectiveTicks(cfg, es, w) + Measure(cfg, Run(cfg, es, w)) <= Measure(cfg, w) + Losses(cfg, es, w)
  {
    if es != [] {
      var init, e := es[..|es| - 1], es[|es| - 1];
      BooksBalance(cfg, init, w);
      OneTickCosts(cfg, e.inp, e.faults, Run(cfg, init, w));
    }
  }

  /** Main result: whatever stutters or fails in between, a rollout has no more effective ticks
      than its measure says at the start, and one ramp more for each torn rollback of a
      progressive rollout. A/B and Blue/Green rollouts have no ramp to lose. */
  lemma RolloutTerminates(cfg: Config, es: seq<Event>, w: World)
    requires WellFormed(cfg) && OnTrack(cfg, w) && StaysInRollout(cfg, es, w)
    ensures OnTrack(cfg, Run(cfg, es, w))
    ensures EffectiveTicks(cfg, es, w) + Measure(cfg, Run(cfg, es, w)) <=
            Measure(cfg, w) + TearingTicks(cfg, es, w) * WholeRamp(cfg)
    ensures !IsProgressive(cfg) ==> EffectiveTicks(cfg, es, w) + Measure(cfg, Run(cfg, es, w)) <= Measure(cfg, w)
  {
    BooksBalance(cfg, es, w);
    LossesAddUp(cfg, es, w);
  }

  /** The books of one tick that stays in the rollout. */
  lemma OneTickCosts(cfg: Config, inp: Input, faults: seq<Outcome>, w: World)
    requires WellFormed(cfg) && OnTrack(cfg, w) && InRollout(cfg, w)
    requires InRollout(cfg, Exec(cfg, TickProgram(cfg, inp, w), faults, w))
    ensures var v := Exec(cfg, TickProgram(cfg, inp, w), faults, w);
            && OnTrack(cfg, v)
            && (if Effective(cfg, inp, faults, w) then 1 else 0) + Measure(cfg, v) <=
               Measure(cfg, w) + if TearsRamp(cfg, inp, faults, w) then WholeRamp(cfg) else 0
  {
    if TearsRamp(cfg, inp, faults, w) {
      TearingTick(cfg, inp, faults, w);
    } else {
      TickDoesNotRaise(cfg, inp, faults, w);
      if Effective(cfg, inp, faults, w) {
        EffectiveTickLowers(cfg, inp, faults, w);
      }
    }
  }

  // ---------------------------------------------------------------------------
  // With skipAnalysis
  // ---------------------------------------------------------------------------

  /** No call takes the target off the record. */
  lemma {:induction false} ExecKeepsRecord(cfg: Config, p: Program, faults: seq<Outcome>, w: World)
    requires Records(w.status, w.target)
    ensures var v := Exec(cfg, p, faults, w); v.target == w.target && Records(v.status, v.target)
  {
    if p.Do? {
      ExecKeepsRecord(cfg, Branch(p, Head(faults)), Tail(faults), Effect(cfg, p.call, Head(faults), w));
    }
  }

  /** What an effective tick decides on when the analysis is to be skipped. */
  lemma SkippingMoves(cfg: Config, inp: Input, faults: seq<Outcome>, w: World)
    requires cfg.skipAnalysis && Effective(cfg, inp, faults, w)
    ensures var move := TickMove(cfg, inp, w);
            if RevisionChanged(inp, w) then move.Restart? else move.RollBack? || move.Skip?
    ensures Records(w.status, w.target) ==> !RevisionChanged(inp, w)
  {
  }

  lemma SkippingExec(cfg: Config, move: Move, w: World)
    requires move.Restart? || move.RollBack? || move.Skip?
    ensures var v := Exec(cfg, ProgramOf(move), [], w);
            if move.Restart? then Records(v.status, v.target) else v.status.phase in {Failed, Succeeded}
  {
    match move {
      case Restart => ExecTwo(cfg, SetRoutes(ALL_TO_PRIMARY), SyncStatus(Progressing), w);
      case RollBack => RollBackLeaves(cfg, w);
      case Skip(rest) => SkipExec(cfg, w, rest);
    }
  }

  /** An effective tick with skipAnalysis ends the rollout, unless it finds a new revision. */
  lemma SkippingTick(cfg: Config, inp: Input, faults: seq<Outcome>, w: World)
    requires cfg.skipAnalysis && Effective(cfg, inp, faults, w)
    ensures var v := Exec(cfg, TickProgram(cfg, inp, w), faults, w);
            if RevisionChanged(inp, w) then Records(v.status, v.target) else v.status.phase in {Failed, Succeeded}
  {
    var p, move := TickProgram(cfg, inp, w), TickMove(cfg, inp, w);
    SkippingMoves(cfg, inp, faults, w);
    NothingFails(cfg, p, faults, w);
    if w.primary.None? {
      ExecOne(cfg, p, [], w);
      SkippingExec(cfg, move, Apply(cfg, CreatePrimary, w));
    } else {
      SkippingExec(cfg, move, w);
    }
  }

  /** Main result with skipAnalysis: whatever stutters or fails in between, a rollout that has
      the target on record is over with its first effective tick, and any other with its second. */
  lemma {:induction false} SkippedRolloutTerminates(cfg: Config, es: seq<Event>, w: World)
    requires cfg.skipAnalysis && StaysInRollout(cfg, es, w)
    ensures EffectiveTicks(cfg, es, w) <= if Records(w.status, w.target) then 0 else 1
    ensures Records(w.status, w.target) || EffectiveTicks(cfg, es, w) == 1 ==>
              var v := Run(cfg, es, w); Records(v.status, v.target)
  {
    if es != [] {
      var init, e := es[..|es| - 1], es[|es| - 1];
      var before := Run(cfg, init, w);
      var p := TickProgram(cfg, e.inp, before);
      SkippedRolloutTerminates(cfg, init, w);
      if Records(before.status, before.target) {
        ExecKeepsRecord(cfg, p, e.faults, before);
      }
      if Effective(cfg, e.inp, e.faults, before) {
        SkippingMoves(cfg, e.inp, e.faults, before);
        SkippingTick(cfg, e.inp, e.faults, before);
      }
    }
  }
}
