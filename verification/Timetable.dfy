// When a healthy rollout does what, for each strategy, from the configuration alone: the traffic
// and the counters after every tick, the tick that promotes, and the tick that succeeds.

module Timetable {
  import opened Options
  import opened CanaryStatus
  import opened Analysis
  import opened Cluster
  import opened Tick
  import opened Moves
  import opened RouteSafety
  import opened Ramp
  import opened Termination
  import opened Completion

  /** A rollout that has just been started, with the analysis on. */
  predicate AtStart(cfg: Config, w: World) {
    && !cfg.skipAnalysis && w.status.phase == Progressing
    && w.status.failedChecks == w.status.iterations == w.status.canaryWeight == 0
    && w.primary.Some? && Recorded(w) && w.routes == ALL_TO_PRIMARY
  }

  /** Under analysis, with nothing held against it. */
  predicate OnCourse(cfg: Config, w: World) {
    && !cfg.skipAnalysis && w.status.phase == Progressing && w.status.failedChecks == 0
    && w.primary.Some? && Recorded(w)
  }

  /** Promoted: the target is in the primary, traffic has not moved yet. */
  predicate Promoted(w: World, routes: Routes) {
    w.status.phase == Promoting && w.primary == Some(w.target) && w.routes == routes
  }

  /** `m` steps of `q` bring weight `c` back to the primary; one is enough if `q` is not set, and
      the kubernetes provider has none to bring back. */
  predicate BringsBack(cfg: Config, c: int, m: nat) {
    var q := cfg.stepWeightPromotion;
    if cfg.provider.Kubernetes? || q == 0 then m == 1 else q > 0 && m >= 1 && (m - 1) * q < c <= m * q
  }

  lemma SameCeiling(q: int, c: int, m: nat, n: nat)
    requires q > 0 && m >= 1 && n >= 1
    requires (m - 1) * q < c <= m * q && (n - 1) * q < c <= n * q
    ensures m == n
  {
    if m < n {
      Scaled(m, n - 1, q);
    } else if n < m {
      Scaled(n, m - 1, q);
    }
  }

  lemma PromotionTakes(cfg: Config, c: int, m: nat)
    requires cfg.stepWeightPromotion >= 0 && c > 0 && BringsBack(cfg, c, m)
    ensures PromotionTicks(cfg, c) == m
  {
    if !cfg.provider.Kubernetes? && cfg.stepWeightPromotion > 0 {
      var n := DescentTicks(c, cfg.stepWeightPromotion);
      DescentTicksIsCeiling(c, cfg.stepWeightPromotion);
      SameCeiling(cfg.stepWeightPromotion, c, m, n);
    }
  }

  // ---------------------------------------------------------------------------
  // Blue/Green
  // ---------------------------------------------------------------------------

  /** `n` test runs are configured, and no routing by conditions. */
  predicate IsBlueGreenOf(cfg: Config, n: int) {
    && n > 0 && n == (if cfg.provider.Kubernetes? && cfg.iterations < 1 then 10 else cfg.iterations)
    && !(cfg.hasMatch && cfg.provider.Mesh?)
  }

  lemma BlueGreenTick(cfg: Config, inp: Input, w: World, n: int)
    requires IsBlueGreenOf(cfg, n) && Healthy(cfg, inp) && OnCourse(cfg, w)
    ensures var v, i := Exec(cfg, TickProgram(cfg, inp, w), [], w), w.status.iterations;
            && v.target == w.target
            && (i <= n ==> OnCourse(cfg, v) && v.status.iterations == i + 1)
            && (i < n ==> v.routes == if cfg.provider.Mesh? && cfg.mirror && !w.routes.mirrored
                                      then Routes(100, 0, cfg.provider.storesMirror) else w.routes)
            && (i == n ==> v.routes == if cfg.provider.Mesh? then ALL_TO_CANARY else w.routes)
            && (i > n ==> Promoted(v, w.routes))
  {
    var move := TickMove(cfg, inp, w);
    assert TickProgram(cfg, inp, w) == ProgramOf(move);
    if w.status.iterations > n {
      PromotionExec(cfg, w);
    } else if move.AdvanceTo? {
      ExecTwo(cfg, SetRoutes(ALL_TO_CANARY), SetStatusIterations(n + 1), w);
    } else {
      CountingExec(cfg, w, move);
    }
  }

  /** Main result for Blue/Green: the tests run while the canary gets no traffic but, if so
      configured, a mirror of it; the tick after the last test switches all traffic, and the one
      after that promotes. */
  lemma {:induction false} BlueGreenRun(cfg: Config, es: seq<Event>, w: World, n: int)
    requires IsBlueGreenOf(cfg, n) && AtStart(cfg, w) && HealthyRun(cfg, es) && |es| <= n + 2
    ensures var v, k := Run(cfg, es, w), |es|;
            && v.target == w.target
            && (k <= n + 1 ==> OnCourse(cfg, v) && v.status.iterations == k)
            && (0 < k <= n ==> v.routes == Routes(100, 0, cfg.provider.Mesh? && cfg.mirror && cfg.provider.storesMirror))
            && (k == n + 1 ==> v.routes == if cfg.provider.Mesh? then ALL_TO_CANARY else ALL_TO_PRIMARY)
            && (k == n + 2 ==> Promoted(v, if cfg.provider.Mesh? then ALL_TO_CANARY else ALL_TO_PRIMARY))
  {
    if es != [] {
      var init, e := es[..|es| - 1], es[|es| - 1];
      assert e in es && forall e <- init :: e in es;
      BlueGreenRun(cfg, init, w, n);
      BlueGreenTick(cfg, e.inp, Run(cfg, init, w), n);
    }
  }

  // ---------------------------------------------------------------------------
  // A/B testing
  // ---------------------------------------------------------------------------

  predicate IsABTestOf(cfg: Config, n: int) {
    n > 0 && n == cfg.iterations && cfg.hasMatch && cfg.provider.Mesh?
  }

  lemma ABTick(cfg: Config, inp: Input, w: World, n: int)
    requires IsABTestOf(cfg, n) && Healthy(cfg, inp) && OnCourse(cfg, w) && w.status.iterations <= n
    ensures var v, i := Exec(cfg, TickProgram(cfg, inp, w), [], w), w.status.iterations;
            && v.target == w.target
            && (i < n ==> OnCourse(cfg, v) && v.status.iterations == i + 1 && v.routes == ALL_TO_CANARY)
            && (i == n ==> Promoted(v, w.routes))
  {
    assert TickProgram(cfg, inp, w) == ProgramOf(TickMove(cfg, inp, w));
    if w.status.iterations < n {
      ExecTwo(cfg, SetRoutes(ALL_TO_CANARY), SetStatusIterations(w.status.iterations + 1), w);
    } else {
      PromotionExec(cfg, w);
    }
  }

  /** Main result for A/B tests: from the first tick on everything that the conditions select goes
      to the canary; each tick counts, and the one after the last count promotes. */
  lemma {:induction false} ABRun(cfg: Config, es: seq<Event>, w: World, n: int)
    requires IsABTestOf(cfg, n) && AtStart(cfg, w) && HealthyRun(cfg, es) && |es| <= n + 1
    ensures var v, k := Run(cfg, es, w), |es|;
            && v.target == w.target
            && (k <= n ==> OnCourse(cfg, v) && v.status.iterations == k)
            && (0 < k <= n ==> v.routes == ALL_TO_CANARY)
            && (k == n + 1 ==> Promoted(v, ALL_TO_CANARY))
  {
    if es != [] {
      var init, e := es[..|es| - 1], es[|es| - 1];
      assert e in es && forall e <- init :: e in es;
      ABRun(cfg, init, w, n);
      ABTick(cfg, e.inp, Run(cfg, init, w), n);
    }
  }

  /** Both strategies succeed after the tests, the switch and the promotion, and not before. */
  lemma TestsSucceedOnTime(cfg: Config, es: seq<Event>, w: World, n: int, m: nat)
    requires IsBlueGreenOf(cfg, n) || IsABTestOf(cfg, n)
    requires AtStart(cfg, w) && HealthyRun(cfg, es) && cfg.stepWeightPromotion >= 0 && BringsBack(cfg, 100, m)
    ensures var ticks := n + (if IsABTestOf(cfg, n) then 1 else 2) + m + 1;
            && (|es| == ticks ==> Completed(Run(cfg, es, w), w.target))
            && (|es| < ticks ==> Run(cfg, es, w).status.phase != Succeeded)
  {
    StartIsRolling(cfg, w);
    PromotionTakes(cfg, 100, m);
    HealthyRolloutSucceeds(cfg, es, w);
  }

  // ---------------------------------------------------------------------------
  // A progressive rollout
  // ---------------------------------------------------------------------------

  /** A fixed step that gets from nothing to the maximum weight in `n` advances. */
  predicate ClimbsIn(cfg: Config, n: nat) {
    var top := if cfg.maxWeight > 0 then cfg.maxWeight else 100;
    && cfg.provider.Mesh? && cfg.iterations <= 0 && (cfg.mirror ==> cfg.provider.storesMirror)
    && cfg.stepWeightPromotion >= 0
    && 0 < cfg.stepWeight <= 100 && cfg.stepWeights == [] && top <= 100
    && n >= 1 && (n - 1) * cfg.stepWeight < top <= n * cfg.stepWeight
  }

  /** A list of `n` increasing weights. */
  predicate ClimbsAlong(cfg: Config, n: nat) {
    && cfg.provider.Mesh? && cfg.iterations <= 0 && (cfg.mirror ==> cfg.provider.storesMirror)
    && cfg.stepWeight <= 0 && |cfg.stepWeights| == n >= 1
    && (forall i, j :: 0 <= i < j < n ==> cfg.stepWeights[i] < cfg.stepWeights[j])
    && 1 <= cfg.stepWeights[0] && cfg.stepWeights[n - 1] <= 100
  }

  /** The canary's weight after `k` advances. */
  function WeightAfter(cfg: Config, k: nat): int
    requires cfg.stepWeights == [] || k <= |cfg.stepWeights|
  {
    if k == 0 then 0
    else if cfg.stepWeights == [] then Min(100, k * cfg.stepWeight)
    else cfg.stepWeights[k - 1]
  }

  /** The ticks spent on mirroring before the first weight. */
  function MirrorTicks(cfg: Config): nat {
    if cfg.mirror then 1 else 0
  }

  lemma RampIsKnown(cfg: Config, n: nat, k: nat)
    requires ClimbsIn(cfg, n) || ClimbsAlong(cfg, n)
    requires k <= n
    ensures (WellFormed(cfg) || cfg.skipAnalysis) && IsProgressive(cfg) && Climbs(cfg)
    ensures Climb(cfg, Foot(cfg), k) ==
            Routes(100 - WeightAfter(cfg, k), WeightAfter(cfg, k), k == 0 && cfg.mirror)
    ensures WeightAfter(cfg, k) < MaxWeight(cfg) <==> k < n
    ensures RampLeft(cfg, Foot(cfg)) == n + 1 && Top(cfg, Foot(cfg)) == WeightAfter(cfg, n)
  {
    if ClimbsIn(cfg, n) {
      RampOfStep(cfg, n, k);
    } else {
      RampLengthOfList(cfg);
      if k > 0 {
        ClimbFollowsTheList(cfg, k);
      }
    }
  }

  lemma RampOfStep(cfg: Config, n: nat, k: nat)
    requires ClimbsIn(cfg, n) && k <= n
    ensures Climbs(cfg)
    ensures Climb(cfg, Foot(cfg), k) ==
            Routes(100 - WeightAfter(cfg, k), WeightAfter(cfg, k), k == 0 && cfg.mirror)
    ensures WeightAfter(cfg, k) < MaxWeight(cfg) <==> k < n
    ensures RampLeft(cfg, Foot(cfg)) == n + 1 && Top(cfg, Foot(cfg)) == WeightAfter(cfg, n)
  {
    RampLengthOfStep(cfg, n);
    if k > 0 {
      ClimbFollowsTheStep(cfg, k);
    }
    if k < n {
      Scaled(k, n - 1, cfg.stepWeight);
    }
  }

  /** The mirror step, if there is one, leads to the foot of the ramp. */
  lemma {:induction false} ClimbFromStart(cfg: Config, k: nat)
    requires cfg.mirror ==> NextStepWeight(cfg, 0) > 0
    ensures Climb(cfg, ALL_TO_PRIMARY, MirrorTicks(cfg) + k) == Climb(cfg, Foot(cfg), k)
  {
    if k > 0 {
      ClimbFromStart(cfg, k - 1);
    } else if cfg.mirror {
      assert Climb(cfg, ALL_TO_PRIMARY, 0) == ALL_TO_PRIMARY;
    }
  }

  /** The routes after `k` ticks. */
  function RoutesAfter(cfg: Config, k: nat): Routes
    requires cfg.stepWeights == [] || k <= |cfg.stepWeights| + MirrorTicks(cfg)
  {
    if k < MirrorTicks(cfg) then ALL_TO_PRIMARY
    else
      var c := WeightAfter(cfg, k - MirrorTicks(cfg));
      Routes(100 - c, c, c == 0 && cfg.mirror)
  }

  lemma RampFromStart(cfg: Config, n: nat, k: nat)
    requires ClimbsIn(cfg, n) || ClimbsAlong(cfg, n)
    requires k <= n + MirrorTicks(cfg)
    ensures Climb(cfg, ALL_TO_PRIMARY, k) == RoutesAfter(cfg, k)
    ensures RoutesAfter(cfg, k).canary < MaxWeight(cfg) <==> k < n + MirrorTicks(cfg)
  {
    if k < MirrorTicks(cfg) {
      RampIsKnown(cfg, n, 0);
      assert Climb(cfg, ALL_TO_PRIMARY, 0) == ALL_TO_PRIMARY;
    } else {
      var j := k - MirrorTicks(cfg);
      FootIsPositive(cfg, n);
      ClimbFromStart(cfg, j);
      FromFoot(cfg, n, j);
    }
  }

  lemma FootIsPositive(cfg: Config, n: nat)
    requires ClimbsIn(cfg, n) || ClimbsAlong(cfg, n)
    ensures NextStepWeight(cfg, 0) > 0
  {
    RampIsKnown(cfg, n, 0);
    StepIsPositive(cfg, 0);
  }

  lemma FromFoot(cfg: Config, n: nat, j: nat)
    requires (ClimbsIn(cfg, n) || ClimbsAlong(cfg, n)) && j <= n
    ensures Climb(cfg, Foot(cfg), j) == RoutesAfter(cfg, MirrorTicks(cfg) + j)
    ensures RoutesAfter(cfg, MirrorTicks(cfg) + j).canary < MaxWeight(cfg) <==> j < n
  {
    RampIsKnown(cfg, n, j);
    if j > 0 {
      PositiveWeight(cfg, n, j);
    }
  }

  lemma PositiveWeight(cfg: Config, n: nat, k: nat)
    requires (ClimbsIn(cfg, n) || ClimbsAlong(cfg, n)) && 0 < k <= n
    ensures WeightAfter(cfg, k) > 0
  {
    if cfg.stepWeights == [] {
      Scaled(1, k, cfg.stepWeight);
    }
  }

  lemma PromotesAtTop(cfg: Config, inp: Input, w: World)
    requires Completable(cfg) && IsProgressive(cfg) && Rolling(cfg, w) && w.status.phase == Progressing
    requires Healthy(cfg, inp) && w.routes.canary >= MaxWeight(cfg)
    ensures Promoted(Exec(cfg, TickProgram(cfg, inp, w), [], w), w.routes)
  {
    HealthyMoves(cfg, inp, w);
    TickMoveIsJustified(cfg, inp, w);
    assert TickMove(cfg, inp, w) == PromoteCanary;
    PromotionExec(cfg, w);
  }

  /** Main result for progressive rollouts: after the mirror step, if there is one, every tick
      brings the next weight of the list, or one more step, and the tick after the last one
      promotes. */
  lemma CanaryRun(cfg: Config, es: seq<Event>, w: World, n: nat)
    requires (ClimbsIn(cfg, n) || ClimbsAlong(cfg, n)) && cfg.stepWeightPromotion >= 0
    requires AtStart(cfg, w) && HealthyRun(cfg, es) && |es| <= n + MirrorTicks(cfg) + 1
    ensures var v, k := Run(cfg, es, w), |es|;
            && (k <= n + MirrorTicks(cfg) ==>
                  && v.routes == RoutesAfter(cfg, k) && v.status.phase == Progressing
                  && v.status.canaryWeight == v.routes.canary)
            && (k == n + MirrorTicks(cfg) + 1 ==> Promoted(v, RoutesAfter(cfg, k - 1)))
  {
    RampIsKnown(cfg, n, 0);
    StartIsRolling(cfg, w);
    if |es| <= n + MirrorTicks(cfg) {
      ClimbsOnCourse(cfg, es, w, n);
    } else {
      PromotesOnTime(cfg, es, w, n);
    }
  }

  lemma PromotesOnTime(cfg: Config, es: seq<Event>, w: World, n: nat)
    requires (ClimbsIn(cfg, n) || ClimbsAlong(cfg, n)) && Completable(cfg) && Rolling(cfg, w)
    requires AtStart(cfg, w) && HealthyRun(cfg, es) && |es| == n + MirrorTicks(cfg) + 1
    ensures Promoted(Run(cfg, es, w), RoutesAfter(cfg, |es| - 1))
  {
    var init, e := es[..|es| - 1], es[|es| - 1];
    assert e in es && forall e <- init :: e in es;
    RampIsKnown(cfg, n, 0);
    ClimbsOnCourse(cfg, init, w, n);
    RampFromStart(cfg, n, |init|);
    PromotesAtTop(cfg, e.inp, Run(cfg, init, w));
  }

  lemma ClimbsOnCourse(cfg: Config, es: seq<Event>, w: World, n: nat)
    requires (ClimbsIn(cfg, n) || ClimbsAlong(cfg, n)) && Completable(cfg) && Rolling(cfg, w)
    requires AtStart(cfg, w) && HealthyRun(cfg, es) && |es| <= n + MirrorTicks(cfg)
    ensures var v := Run(cfg, es, w);
            && v.routes == RoutesAfter(cfg, |es|) && v.status.phase == Progressing && Rolling(cfg, v)
            && v.status.canaryWeight == v.routes.canary
  {
    RampIsKnown(cfg, n, 0);
    forall i: nat | i < |es|
      ensures Climb(cfg, w.routes, i).canary < MaxWeight(cfg)
    {
      RampFromStart(cfg, n, i);
    }
    RampFromStart(cfg, n, |es|);
    HealthyRolloutClimbs(cfg, es, w);
  }

  /** A progressive rollout succeeds after the mirror step, the advances, the promoting tick, the
      way back and the last tick, and not before. */
  lemma CanarySucceedsOnTime(cfg: Config, es: seq<Event>, w: World, n: nat, m: nat)
    requires (ClimbsIn(cfg, n) || ClimbsAlong(cfg, n)) && cfg.stepWeightPromotion >= 0
    requires AtStart(cfg, w) && HealthyRun(cfg, es) && BringsBack(cfg, WeightAfter(cfg, n), m)
    ensures var ticks := MirrorTicks(cfg) + n + 1 + m + 1;
            && (|es| == ticks ==> Completed(Run(cfg, es, w), w.target))
            && (|es| < ticks ==> Run(cfg, es, w).status.phase != Succeeded)
  {
    RampIsKnown(cfg, n, n);
    PositiveWeight(cfg, n, n);
    StartIsRolling(cfg, w);
    PromotionTakes(cfg, WeightAfter(cfg, n), m);
    RampLeftFromStart(cfg);
    HealthyRolloutSucceeds(cfg, es, w);
  }

  lemma RampLeftFromStart(cfg: Config)
    requires WellFormed(cfg) && IsProgressive(cfg)
    ensures RampLeft(cfg, ALL_TO_PRIMARY) == MirrorTicks(cfg) + RampLeft(cfg, Foot(cfg))
    ensures Top(cfg, ALL_TO_PRIMARY) == Top(cfg, Foot(cfg))
  {
    StepIsPositive(cfg, 0);
  }
}
