// A rollout whose checks pass and whose gates open ends in Succeeded, in a number of ticks
// known from the start.

module Completion {
  import opened Options
  import opened CanaryStatus
  import opened Analysis
  import opened Cluster
  import opened Tick
  import opened Moves
  import opened RouteSafety
  import opened Ramp
  import opened Termination

  /** A configuration whose rollouts can get through the promotion as well. */
  predicate Completable(cfg: Config) {
    WellFormed(cfg) && cfg.stepWeightPromotion >= 0
  }

  /** Everything is readable, ready and healthy, and every gate is open. */
  predicate Healthy(cfg: Config, inp: Input) {
    && inp.bootstrapped && inp.reconciled && inp.routesRead && inp.primaryReady && inp.readiness.Ready?
    && inp.metricsPass && !AnyApproves(cfg, inp, Rollback)
    && forall hook <- {ConfirmRollout, PreRollout, Rollout, ConfirmTrafficIncrease, ConfirmPromotion} ::
         AllApprove(cfg, inp, hook)
  }

  /** A rollout in progress whose records agree with where its traffic is. */
  ghost predicate Rolling(cfg: Config, w: World) {
    && InAnalysis(w.status.phase) && OnTrack(cfg, w)
    && (w.status.phase == Finalising || cfg.provider.Kubernetes? ==> w.routes == ALL_TO_PRIMARY)
    && (w.status.phase == Progressing ==> !ThresholdReached(cfg, w))
    && (w.status.phase.Promoting? || w.status.phase.Finalising? ==> w.primary == Some(w.target))
    && (w.status.phase == Promoting && !cfg.provider.Kubernetes? && cfg.stepWeightPromotion != 0 ==> w.routes.canary > 0)
    && (Analysing(w.status.phase) && Switched(cfg, w) ==> w.routes.canary == TOTAL_WEIGHT)
  }

  /** The iteration count says that the canary has been given all traffic. */
  predicate Switched(cfg: Config, w: World) {
    if IsABTest(cfg) then w.status.iterations > 0
    else IsBlueGreen(cfg) && !cfg.provider.Kubernetes? && w.status.iterations > Iterations(cfg)
  }

  /** What follows from a fresh start, whichever strategy is configured. */
  lemma StartIsRolling(cfg: Config, w: World)
    requires w.status.phase == Progressing && w.status.failedChecks == w.status.iterations == 0
    requires w.primary.Some? && Recorded(w) && w.routes == ALL_TO_PRIMARY
    ensures Rolling(cfg, w)
  {
  }

  /** The weight on the canary when the promotion begins. */
  function Peak(cfg: Config, w: World): int
    requires Completable(cfg) && OnTrack(cfg, w)
  {
    if IsProgressive(cfg) then Top(cfg, w.routes) else TOTAL_WEIGHT
  }

  /** The ticks it takes to bring weight `c` back to the primary. */
  function PromotionTicks(cfg: Config, c: int): nat
    requires cfg.stepWeightPromotion >= 0
  {
    if cfg.provider.Kubernetes? || cfg.stepWeightPromotion == 0 then 1
    else DescentTicks(c, cfg.stepWeightPromotion)
  }

  /** The healthy ticks left until the rollout has succeeded. */
  function Distance(cfg: Config, w: World): nat
    requires Completable(cfg) && OnTrack(cfg, w)
  {
    match w.status.phase
    case Finalising => 1
    case Promoting => PromotionTicks(cfg, w.routes.canary) + 1
    case _ => Left(cfg, w) + PromotionTicks(cfg, Peak(cfg, w)) + 1
  }

  // ---------------------------------------------------------------------------
  // One tick
  // ---------------------------------------------------------------------------

  lemma HealthyMoves(cfg: Config, inp: Input, w: World)
    requires Completable(cfg) && Rolling(cfg, w) && Healthy(cfg, inp)
    ensures TickProgram(cfg, inp, w) == ProgramOf(TickMove(cfg, inp, w))
    ensures var move := TickMove(cfg, inp, w);
            match w.status.phase
            case Finalising => move == Complete
            case Promoting => move == PromotionShift(cfg, GetRoutes(cfg, w))
            case _ => move.Count? || move.MirrorAndCount? || move.AdvanceTo? || move.PromoteCanary?
  {
    if IsProgressive(cfg) {
      StepIsPositive(cfg, w.routes.canary);
    }
  }

  // What a tick keeps.

  /** A rollout under analysis goes on as long as iterations and traffic agree. */
  lemma RecordsKeepRolling(cfg: Config, w: World, v: World)
    requires Rolling(cfg, w) && Analysing(w.status.phase) && SameRecords(w, v)
    requires v.status.iterations >= 0 && (IsABTest(cfg) ==> v.status.iterations <= Iterations(cfg))
    requires Balanced(cfg, v.routes) && (v.routes.mirrored ==> StoresMirror(cfg))
    requires cfg.provider.Kubernetes? ==> v.routes == ALL_TO_PRIMARY
    requires Switched(cfg, v) ==> v.routes.canary == TOTAL_WEIGHT
    ensures Rolling(cfg, v)
  {
  }

  lemma CountKeepsRolling(cfg: Config, w: World)
    requires Rolling(cfg, w) && IsBlueGreen(cfg) && Analysing(w.status.phase)
    requires w.status.iterations < Iterations(cfg) || cfg.provider.Kubernetes?
    ensures Rolling(cfg, Apply(cfg, SetStatusIterations(w.status.iterations + 1), w))
  {
    var n := w.status.iterations + 1;
    CountingKeepsRecords(cfg, w, n);
    RecordsKeepRolling(cfg, w, Apply(cfg, SetStatusIterations(n), w));
  }

  lemma MirroringKeepsRolling(cfg: Config, w: World)
    requires Rolling(cfg, w) && IsBlueGreen(cfg) && Analysing(w.status.phase)
    requires w.status.iterations < Iterations(cfg) && !cfg.provider.Kubernetes?
    ensures var v := Apply(cfg, SetStatusIterations(w.status.iterations + 1),
                           Apply(cfg, SetRoutes(Routes(TOTAL_WEIGHT, 0, true)), w));
            Rolling(cfg, v)
  {
    var n, r := w.status.iterations + 1, Routes(TOTAL_WEIGHT, 0, true);
    var u := Apply(cfg, SetRoutes(r), w);
    RoutingKeepsRecords(cfg, w, r);
    CountingKeepsRecords(cfg, u, n);
    RecordsKeepRolling(cfg, w, Apply(cfg, SetStatusIterations(n), u));
  }

  /** Any sound routes do, as long as the strategy keeps no count of them. */
  lemma RoutesKeepRolling(cfg: Config, w: World, r: Routes)
    requires Rolling(cfg, w) && IsProgressive(cfg) && Analysing(w.status.phase)
    requires Balanced(cfg, r) && (r.mirrored ==> StoresMirror(cfg))
    ensures var v := Apply(cfg, SetStatusWeight(r.canary), Apply(cfg, SetRoutes(r), w));
            Rolling(cfg, v) && v.routes == r && v.target == w.target
  {
    RoutingKeepsRecords(cfg, w, r);
    RecordsKeepRolling(cfg, w, Apply(cfg, SetStatusWeight(r.canary), Apply(cfg, SetRoutes(r), w)));
  }

  lemma SwitchKeepsRolling(cfg: Config, w: World)
    requires Rolling(cfg, w) && !IsProgressive(cfg) && !cfg.provider.Kubernetes? && Analysing(w.status.phase)
    requires IsABTest(cfg) ==> w.status.iterations < Iterations(cfg)
    ensures Rolling(cfg, Apply(cfg, SetStatusIterations(w.status.iterations + 1), Apply(cfg, SetRoutes(ALL_TO_CANARY), w)))
  {
    var n, u := w.status.iterations + 1, Apply(cfg, SetRoutes(ALL_TO_CANARY), w);
    RoutingKeepsRecords(cfg, w, ALL_TO_CANARY);
    CountingKeepsRecords(cfg, u, n);
    RecordsKeepRolling(cfg, w, Apply(cfg, SetStatusIterations(n), u));
  }

  // What a tick saves.

  lemma CountShortens(cfg: Config, w: World, v: World)
    requires Completable(cfg) && OnTrack(cfg, w) && OnTrack(cfg, v) && !IsProgressive(cfg)
    requires Analysing(w.status.phase) && v.status.phase == w.status.phase
    requires v.status.iterations == w.status.iterations + 1 && w.status.iterations <= Iterations(cfg)
    ensures Distance(cfg, v) == Distance(cfg, w) - 1
  {
  }

  lemma ClimbShortens(cfg: Config, w: World, v: World)
    requires Completable(cfg) && OnTrack(cfg, w) && OnTrack(cfg, v) && IsProgressive(cfg)
    requires Analysing(w.status.phase) && v.status.phase == w.status.phase
    requires w.routes.canary < MaxWeight(cfg) && v.routes == Advanced(cfg, w.routes)
    ensures Distance(cfg, v) == Distance(cfg, w) - 1
  {
  }

  lemma ShiftShortens(cfg: Config, w: World, v: World)
    requires Completable(cfg) && OnTrack(cfg, w) && OnTrack(cfg, v) && w.status.phase == Promoting
    requires !cfg.provider.Kubernetes? && cfg.stepWeightPromotion > 0 && w.routes.canary > 0
    requires v.routes == ShiftedBack(w.routes, cfg.stepWeightPromotion)
    requires v.status.phase == if v.routes.canary > 0 then Promoting else Finalising
    ensures Distance(cfg, v) == Distance(cfg, w) - 1
  {
    var c, q := w.routes.canary, cfg.stepWeightPromotion;
    assert DescentTicks(c, q) == 1 + DescentTicks(c - q, q);
  }

  // The ticks.

  lemma CountingTick(cfg: Config, w: World)
    requires Completable(cfg) && Rolling(cfg, w) && IsBlueGreen(cfg) && Analysing(w.status.phase)
    requires w.status.iterations < Iterations(cfg) ||
             (w.status.iterations == Iterations(cfg) && cfg.provider.Kubernetes?)
    ensures var v := Apply(cfg, SetStatusIterations(w.status.iterations + 1), w);
            Rolling(cfg, v) && v.target == w.target && Distance(cfg, v) == Distance(cfg, w) - 1
  {
    var n := w.status.iterations + 1;
    CountKeepsRolling(cfg, w);
    CountingKeepsRecords(cfg, w, n);
    CountShortens(cfg, w, Apply(cfg, SetStatusIterations(n), w));
  }

  lemma MirroringTick(cfg: Config, w: World)
    requires Completable(cfg) && Rolling(cfg, w) && IsBlueGreen(cfg) && Analysing(w.status.phase)
    requires w.status.iterations < Iterations(cfg) && !cfg.provider.Kubernetes?
    ensures var v := Apply(cfg, SetStatusIterations(w.status.iterations + 1),
                           Apply(cfg, SetRoutes(Routes(TOTAL_WEIGHT, 0, true)), w));
            Rolling(cfg, v) && v.target == w.target && Distance(cfg, v) == Distance(cfg, w) - 1
  {
    var n, r := w.status.iterations + 1, Routes(TOTAL_WEIGHT, 0, true);
    var u := Apply(cfg, SetRoutes(r), w);
    MirroringKeepsRolling(cfg, w);
    RoutingKeepsRecords(cfg, w, r);
    CountingKeepsRecords(cfg, u, n);
    CountShortens(cfg, w, Apply(cfg, SetStatusIterations(n), u));
  }

  lemma ClimbingTick(cfg: Config, w: World)
    requires Completable(cfg) && Rolling(cfg, w) && IsProgressive(cfg) && Analysing(w.status.phase)
    requires w.routes.canary < MaxWeight(cfg)
    ensures var r := Advanced(cfg, w.routes);
            var v := Apply(cfg, SetStatusWeight(r.canary), Apply(cfg, SetRoutes(r), w));
            && Rolling(cfg, v) && v.target == w.target && Distance(cfg, v) == Distance(cfg, w) - 1
            && v.routes == r
  {
    var r := Advanced(cfg, w.routes);
    StepIsPositive(cfg, w.routes.canary);
    AdvanceBalances(cfg, w.routes);
    RoutesKeepRolling(cfg, w, r);
    ClimbShortens(cfg, w, Apply(cfg, SetStatusWeight(r.canary), Apply(cfg, SetRoutes(r), w)));
  }

  lemma SwitchingTick(cfg: Config, w: World)
    requires Completable(cfg) && Rolling(cfg, w) && !IsProgressive(cfg) && Analysing(w.status.phase)
    requires !cfg.provider.Kubernetes? && w.status.iterations <= Iterations(cfg)
    requires IsABTest(cfg) ==> w.status.iterations < Iterations(cfg)
    ensures var v := Apply(cfg, SetStatusIterations(w.status.iterations + 1), Apply(cfg, SetRoutes(ALL_TO_CANARY), w));
            Rolling(cfg, v) && v.target == w.target && Distance(cfg, v) == Distance(cfg, w) - 1
  {
    var n, u := w.status.iterations + 1, Apply(cfg, SetRoutes(ALL_TO_CANARY), w);
    SwitchKeepsRolling(cfg, w);
    RoutingKeepsRecords(cfg, w, ALL_TO_CANARY);
    CountingKeepsRecords(cfg, u, n);
    CountShortens(cfg, w, Apply(cfg, SetStatusIterations(n), u));
  }

  lemma PromotingShortens(cfg: Config, w: World, v: World)
    requires Completable(cfg) && OnTrack(cfg, w) && OnTrack(cfg, v) && PromotionDue(cfg, w)
    requires Analysing(w.status.phase) && v.status.phase == Promoting
    requires v.routes == w.routes && (!IsProgressive(cfg) && !cfg.provider.Kubernetes? ==> w.routes.canary == TOTAL_WEIGHT)
    ensures Distance(cfg, v) == Distance(cfg, w) - 1
  {
  }

  lemma PromotingKeepsRolling(cfg: Config, w: World)
    requires Rolling(cfg, w) && Analysing(w.status.phase)
    requires !cfg.provider.Kubernetes? ==> w.routes.canary > 0
    ensures var v := Apply(cfg, SetStatusPhase(Promoting), Apply(cfg, Promote, w));
            Rolling(cfg, v) && v.target == w.target && v.routes == w.routes && v.status.phase == Promoting
  {
  }

  /** Where traffic is when promotion is due. */
  lemma DueTraffic(cfg: Config, w: World)
    requires Completable(cfg) && Rolling(cfg, w) && Analysing(w.status.phase) && PromotionDue(cfg, w)
    ensures !cfg.provider.Kubernetes? ==> w.routes.canary > 0
    ensures !IsProgressive(cfg) && !cfg.provider.Kubernetes? ==> w.routes.canary == TOTAL_WEIGHT
  {
  }

  lemma PromotingTick(cfg: Config, w: World)
    requires Completable(cfg) && Rolling(cfg, w) && Analysing(w.status.phase) && PromotionDue(cfg, w)
    ensures var v := Exec(cfg, ProgramOf(PromoteCanary), [], w);
            Rolling(cfg, v) && v.target == w.target && Distance(cfg, v) == Distance(cfg, w) - 1
  {
    PromotionExec(cfg, w);
    DueTraffic(cfg, w);
    PromotingKeepsRolling(cfg, w);
    PromotingShortens(cfg, w, Apply(cfg, SetStatusPhase(Promoting), Apply(cfg, Promote, w)));
  }

  lemma FinalisingTick(cfg: Config, w: World, routed: bool)
    requires Completable(cfg) && Rolling(cfg, w) && w.status.phase == Promoting
    requires PromotionShift(cfg, GetRoutes(cfg, w)) == Finalise(routed)
    ensures var v := Exec(cfg, ProgramOf(Finalise(routed)), [], w);
            Rolling(cfg, v) && v.target == w.target && Distance(cfg, v) == Distance(cfg, w) - 1
  {
    if routed {
      ExecTwo(cfg, SetRoutes(ALL_TO_PRIMARY), SetStatusPhase(Finalising), w);
    } else {
      ExecOne(cfg, Then(SetStatusPhase(Finalising), Halt), [], w);
    }
  }

  lemma PromotionKeepsRolling(cfg: Config, w: World, v: World)
    requires Rolling(cfg, w) && w.status.phase == Promoting && !cfg.provider.Kubernetes?
    requires v.target == w.target && v.primary == w.primary
    requires v.status.lastAppliedSpec == w.status.lastAppliedSpec
    requires v.status.lastPromotedSpec == w.status.lastPromotedSpec
    requires v.status.trackedConfigs == w.status.trackedConfigs
    requires v.status.iterations == 0 || v.status.iterations == w.status.iterations
    requires Balanced(cfg, v.routes) && !v.routes.mirrored
    requires v.status.phase == if v.routes.canary > 0 then Promoting else Finalising
    ensures Rolling(cfg, v)
  {
  }

  lemma ShiftKeepsRolling(cfg: Config, w: World, r: Routes, counter: Call)
    requires cfg.stepWeightPromotion >= 0 && Rolling(cfg, w) && w.status.phase == Promoting
    requires PromotionShift(cfg, GetRoutes(cfg, w)) == AdvanceTo(r, counter)
    ensures var v := Apply(cfg, counter, Apply(cfg, SetRoutes(r), w));
            && Rolling(cfg, v) && v.target == w.target && v.routes == r
            && v.status.phase == if r.canary > 0 then Promoting else Finalising
  {
    ShiftBackBalances(cfg, w.routes, cfg.stepWeightPromotion);
    PromotionKeepsRolling(cfg, w, Apply(cfg, counter, Apply(cfg, SetRoutes(r), w)));
  }

  lemma ShiftingTick(cfg: Config, w: World, r: Routes, counter: Call)
    requires Completable(cfg) && Rolling(cfg, w) && w.status.phase == Promoting
    requires PromotionShift(cfg, GetRoutes(cfg, w)) == AdvanceTo(r, counter)
    ensures var v := Apply(cfg, counter, Apply(cfg, SetRoutes(r), w));
            Rolling(cfg, v) && v.target == w.target && Distance(cfg, v) == Distance(cfg, w) - 1
  {
    ShiftKeepsRolling(cfg, w, r, counter);
    ShiftShortens(cfg, w, Apply(cfg, counter, Apply(cfg, SetRoutes(r), w)));
  }

  lemma AdvancingTick(cfg: Config, inp: Input, w: World, r: Routes, counter: Call)
    requires Completable(cfg) && Rolling(cfg, w) && Analysing(w.status.phase)
    requires Justified(cfg, inp, w, AdvanceTo(r, counter))
    ensures var v := Exec(cfg, ProgramOf(AdvanceTo(r, counter)), [], w);
            Rolling(cfg, v) && v.target == w.target && Distance(cfg, v) == Distance(cfg, w) - 1
  {
    AdvanceIsDue(cfg, inp, w, r, counter);
    ExecTwo(cfg, SetRoutes(r), counter, w);
    if IsProgressive(cfg) {
      ClimbingTick(cfg, w);
    } else {
      SwitchingTick(cfg, w);
    }
  }

  lemma PassingTick(cfg: Config, inp: Input, w: World, move: Move)
    requires Completable(cfg) && Rolling(cfg, w) && Justified(cfg, inp, w, move) && Analysing(w.status.phase)
    requires move.Count? || move.MirrorAndCount?
    ensures var v := Exec(cfg, ProgramOf(move), [], w);
            Rolling(cfg, v) && v.target == w.target && Distance(cfg, v) == Distance(cfg, w) - 1
  {
    CountIsDue(cfg, inp, w, move);
    CountingExec(cfg, w, move);
    if move.Count? {
      CountingTick(cfg, w);
    } else {
      MirroringTick(cfg, w);
    }
  }

  /** Every healthy tick brings the rollout one tick closer to its end. */
  lemma HealthyTick(cfg: Config, inp: Input, w: World)
    requires Completable(cfg) && Rolling(cfg, w) && Healthy(cfg, inp) && Distance(cfg, w) > 1
    ensures var v := Exec(cfg, TickProgram(cfg, inp, w), [], w);
            Rolling(cfg, v) && v.target == w.target && Distance(cfg, v) == Distance(cfg, w) - 1
  {
    HealthyMoves(cfg, inp, w);
    TickMoveIsJustified(cfg, inp, w);
    var move := TickMove(cfg, inp, w);
    if w.status.phase == Promoting {
      if move.Finalise? {
        FinalisingTick(cfg, w, move.routed);
      } else {
        ExecTwo(cfg, SetRoutes(move.routes), move.counter, w);
        ShiftingTick(cfg, w, move.routes, move.counter);
      }
    } else if move.PromoteCanary? {
      PromotingTick(cfg, w);
    } else if move.AdvanceTo? {
      AdvancingTick(cfg, inp, w, move.routes, move.counter);
    } else {
      PassingTick(cfg, inp, w, move);
    }
  }

  ghost predicate Completed(w: World, target: Revision) {
    && w.status.phase == Succeeded && w.primary == Some(target)
    && w.routes == ALL_TO_PRIMARY && w.replicas == 0
    && w.status.lastPromotedSpec == w.status.lastAppliedSpec
    && w.status.promoted.Some? && w.status.promoted.value.status == True
  }

  lemma LastTick(cfg: Config, e: Event, w: World)
    requires Completable(cfg) && Rolling(cfg, w) && Distance(cfg, w) == 1
    requires e.Advance? && Healthy(cfg, e.inp) && e.faults == []
    ensures Completed(Step(cfg, e, w), w.target)
  {
    OneTickLeft(cfg, w);
    HealthyMoves(cfg, e.inp, w);
    ExecTwo(cfg, ScaleToZero, SetStatusPhase(Succeeded), w);
  }

  /** Only the end of a promotion is one tick away from success. */
  lemma OneTickLeft(cfg: Config, w: World)
    requires Completable(cfg) && Rolling(cfg, w)
    ensures Distance(cfg, w) <= 1 <==> w.status.phase == Finalising
  {
    if !cfg.provider.Kubernetes? && cfg.stepWeightPromotion != 0 && w.routes.canary > 0 {
      assert DescentTicks(w.routes.canary, cfg.stepWeightPromotion) >= 1;
    }
  }

  // ---------------------------------------------------------------------------
  // The whole rollout
  // ---------------------------------------------------------------------------

  ghost predicate HealthyRun(cfg: Config, es: seq<Event>) {
    forall e <- es :: e.Advance? && Healthy(cfg, e.inp) && e.faults == []
  }

  lemma {:induction false} HealthyRunApproaches(cfg: Config, es: seq<Event>, w: World)
    requires Completable(cfg) && Rolling(cfg, w) && HealthyRun(cfg, es) && |es| < Distance(cfg, w)
    ensures var v := Run(cfg, es, w);
            Rolling(cfg, v) && v.target == w.target && Distance(cfg, v) == Distance(cfg, w) - |es|
  {
    if es != [] {
      var init := es[..|es| - 1];
      assert forall e <- init :: e in es;
      HealthyRunApproaches(cfg, init, w);
      HealthyTick(cfg, es[|es| - 1].inp, Run(cfg, init, w));
    }
  }

  lemma HealthyRunArrives(cfg: Config, es: seq<Event>, w: World)
    requires Completable(cfg) && Rolling(cfg, w) && HealthyRun(cfg, es) && |es| == Distance(cfg, w) > 0
    ensures Completed(Run(cfg, es, w), w.target)
  {
    var init, e := es[..|es| - 1], es[|es| - 1];
    assert e in es && forall e <- init :: e in es;
    HealthyRunApproaches(cfg, init, w);
    LastTick(cfg, e, Run(cfg, init, w));
  }

  lemma DistanceIsPositive(cfg: Config, w: World)
    requires Completable(cfg) && OnTrack(cfg, w)
    ensures Distance(cfg, w) > 0
  {
  }

  /** Main result: a healthy rollout succeeds after exactly `Distance` ticks, with the target
      in the primary, all traffic on it, and the canary scaled down; and not before. */
  lemma HealthyRolloutSucceeds(cfg: Config, es: seq<Event>, w: World)
    requires Completable(cfg) && Rolling(cfg, w) && HealthyRun(cfg, es)
    ensures |es| == Distance(cfg, w) ==> Completed(Run(cfg, es, w), w.target)
    ensures |es| < Distance(cfg, w) ==> Run(cfg, es, w).status.phase != Succeeded
  {
    if |es| < Distance(cfg, w) {
      HealthyRunApproaches(cfg, es, w);
    } else if |es| == Distance(cfg, w) {
      DistanceIsPositive(cfg, w);
      HealthyRunArrives(cfg, es, w);
    }
  }

  /** One healthy tick below the maximum weight. */
  lemma HealthyTickClimbs(cfg: Config, inp: Input, w: World)
    requires Completable(cfg) && IsProgressive(cfg) && Rolling(cfg, w) && w.status.phase == Progressing
    requires Healthy(cfg, inp) && w.routes.canary < MaxWeight(cfg)
    ensures var v := Exec(cfg, TickProgram(cfg, inp, w), [], w);
            && Rolling(cfg, v) && v.status.phase == Progressing
            && v.routes == Advanced(cfg, w.routes) && v.status.canaryWeight == v.routes.canary
  {
    var r := Advanced(cfg, w.routes);
    HealthyMoves(cfg, inp, w);
    TickMoveIsJustified(cfg, inp, w);
    StepIsPositive(cfg, w.routes.canary);
    assert TickMove(cfg, inp, w) == AdvanceTo(r, SetStatusWeight(r.canary));
    ExecTwo(cfg, SetRoutes(r), SetStatusWeight(r.canary), w);
    ClimbingTick(cfg, w);
  }

  /** The k-th tick of a healthy progressive rollout leaves the routes at the k-th step of
      the ramp, and the status with that weight. */
  lemma {:induction false} HealthyRolloutClimbs(cfg: Config, es: seq<Event>, w: World)
    requires Completable(cfg) && IsProgressive(cfg) && Rolling(cfg, w) && w.status.phase == Progressing
    requires HealthyRun(cfg, es)
    requires forall i: nat | i < |es| :: Climb(cfg, w.routes, i).canary < MaxWeight(cfg)
    ensures var v := Run(cfg, es, w);
            && v.routes == Climb(cfg, w.routes, |es|) && v.status.phase == Progressing && Rolling(cfg, v)
            && (es != [] ==> v.status.canaryWeight == v.routes.canary)
  {
    if es != [] {
      var init := es[..|es| - 1];
      assert forall e <- init :: e in es;
      HealthyRolloutClimbs(cfg, init, w);
      HealthyTickClimbs(cfg, es[|es| - 1].inp, Run(cfg, init, w));
    }
  }

  /** One healthy tick of a stepwise promotion. */
  lemma DescendsOn(cfg: Config, init: seq<Event>, e: Event, w: World)
    requires Completable(cfg) && !cfg.provider.Kubernetes? && cfg.stepWeightPromotion > 0
    requires Rolling(cfg, Run(cfg, init, w)) && Run(cfg, init, w).status.phase == Promoting
    requires e.Advance? && Healthy(cfg, e.inp) && e.faults == []
    ensures var v := Step(cfg, e, Run(cfg, init, w));
            && v.routes == ShiftedBack(Run(cfg, init, w).routes, cfg.stepWeightPromotion)
            && v.status.phase == (if v.routes.canary > 0 then Promoting else Finalising)
            && v.status.canaryWeight == v.routes.canary
  {
    var before := Run(cfg, init, w);
    HealthyMoves(cfg, e.inp, before);
    var move := PromotionShift(cfg, before.routes);
    ExecTwo(cfg, SetRoutes(move.routes), move.counter, before);
    ShiftKeepsRolling(cfg, before, move.routes, move.counter);
  }

  /** The k-th tick of a stepwise promotion leaves the routes at the k-th step back; the
      rollout is Finalising as soon as nothing is left on the canary. */
  lemma {:induction false} PromotionDescends(cfg: Config, es: seq<Event>, w: World)
    requires Completable(cfg) && Rolling(cfg, w) && HealthyRun(cfg, es) && |es| < Distance(cfg, w)
    requires w.status.phase == Promoting && !cfg.provider.Kubernetes? && cfg.stepWeightPromotion > 0
    ensures var v := Run(cfg, es, w);
            && v.routes == Descent(w.routes, cfg.stepWeightPromotion, |es|)
            && v.status.phase == (if v.routes.canary > 0 then Promoting else Finalising)
            && (es != [] ==> v.status.canaryWeight == v.routes.canary)
  {
    if es != [] {
      var init, e := es[..|es| - 1], es[|es| - 1];
      assert forall e <- init :: e in es;
      PromotionDescends(cfg, init, w);
      StillPromoting(cfg, init, w);
      assert Healthy(cfg, e.inp) && e.faults == [];
      DescendsOn(cfg, init, e, w);
    }
  }

  /** A promotion with more than one healthy tick to go has weight left on the canary. */
  lemma StillPromoting(cfg: Config, es: seq<Event>, w: World)
    requires Completable(cfg) && Rolling(cfg, w) && HealthyRun(cfg, es) && |es| < Distance(cfg, w) - 1
    requires Run(cfg, es, w).status.phase == Promoting || Run(cfg, es, w).status.phase == Finalising
    ensures Rolling(cfg, Run(cfg, es, w)) && Run(cfg, es, w).status.phase == Promoting
  {
    HealthyRunApproaches(cfg, es, w);
  }
}
