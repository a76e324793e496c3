// The weights a progressive rollout passes through, in closed form.

module Ramp {
  import opened Analysis
  import opened Cluster
  import opened Tick
  import opened RouteSafety

  predicate StrictlyIncreasing(steps: seq<int>) {
    forall i, j :: 0 <= i < j < |steps| ==> steps[i] < steps[j]
  }

  /** The first `n` steps increase. */
  predicate Rises(steps: seq<int>, n: nat)
    requires n <= |steps|
  {
    forall i, j :: 0 <= i < j < n ==> steps[i] < steps[j]
  }

  /** The list of steps is in force, and climbs within 1..100. */
  predicate ClimbsByList(cfg: Config) {
    && cfg.stepWeight <= 0 && |cfg.stepWeights| > 0
    && StrictlyIncreasing(cfg.stepWeights)
    && 1 <= cfg.stepWeights[0] && cfg.stepWeights[|cfg.stepWeights| - 1] <= TOTAL_WEIGHT
  }

  /** Every step is forward and the last one is within reach. */
  predicate Climbs(cfg: Config) {
    && (cfg.stepWeight > 0 || ClimbsByList(cfg))
    && 1 <= MaxWeight(cfg) <= TOTAL_WEIGHT
  }

  /** The weights add up. Leaving the mirror step with a fixed step above 100 takes the
      primary below zero; apart from that these are splits of the traffic. */
  predicate Balanced(cfg: Config, r: Routes) {
    && 0 <= r.canary && r.primary + r.canary == TOTAL_WEIGHT
    && (cfg.stepWeight <= 0 ==> r.canary <= TOTAL_WEIGHT)
  }

  /** Moving traffic forward keeps the balance and gets somewhere. */
  lemma AdvanceBalances(cfg: Config, r: Routes)
    requires Balanced(cfg, r) && r.canary < TOTAL_WEIGHT && NextStepWeight(cfg, r.canary) > 0
    ensures var next := Advanced(cfg, r);
            Balanced(cfg, next) && (next.canary > r.canary || (next == r.(mirrored := true) && !r.mirrored))
  {
  }

  /** Moving traffic back keeps the balance, and ends with all traffic on the primary. */
  lemma ShiftBackBalances(cfg: Config, r: Routes, step: int)
    requires Balanced(cfg, r) && step > 0 && r.canary > 0
    ensures var next := ShiftedBack(r, step);
            && Balanced(cfg, next) && next.canary == Max(r.canary - step, 0) && !next.mirrored
            && (next.primary == TOTAL_WEIGHT <==> next == ALL_TO_PRIMARY)
            && (next.primary == TOTAL_WEIGHT <==> r.canary <= step)
  {
  }

  /** The guard `nextStepWeight > 0` never holds up a rollout whose steps climb. */
  lemma StepIsPositive(cfg: Config, weight: int)
    requires Climbs(cfg) && 0 <= weight && (cfg.stepWeight <= 0 ==> weight <= TOTAL_WEIGHT)
    ensures NextStepWeight(cfg, weight) > 0
  {
    StepIndexMeans(cfg.stepWeights, weight, 0);
  }

  /** In an increasing list a weight is found where it stands. */
  lemma {:induction false} FoundWhereItStands(steps: seq<int>, i: nat, from: nat)
    requires from <= i < |steps| - 1 && forall j :: from <= j < i ==> steps[j] != steps[i]
    ensures StepIndex(steps, steps[i], from) == i
    decreases i - from
  {
    if from < i {
      FoundWhereItStands(steps, i, from + 1);
    }
  }

  /** A list that does not increase has an entry at which the guard does not pass. Whether a
      rollout ever gets to that entry is another matter: see Reach. */
  lemma {:induction false} HeldUpAtTheDescent(cfg: Config, n: nat)
    requires cfg.stepWeight <= 0 && 0 < n <= |cfg.stepWeights|
    requires forall i :: 0 <= i < |cfg.stepWeights| - 1 ==> 1 <= cfg.stepWeights[i] < TOTAL_WEIGHT
    ensures StrictlyIncreasing(cfg.stepWeights[..n]) ||
            exists s <- cfg.stepWeights[..n - 1] :: NextStepWeight(cfg, s) <= 0
  {
    var steps := cfg.stepWeights;
    if n > 1 {
      HeldUpAtTheDescent(cfg, n - 1);
      if StrictlyIncreasing(steps[..n - 1]) {
        FoundWhereItStands(steps, n - 2, 0);
        assert steps[n - 2] in steps[..n - 1];
        assert NextStepWeight(cfg, steps[n - 2]) == Min(TOTAL_WEIGHT - steps[n - 2], steps[n - 1] - steps[n - 2]);
      } else {
        var s :| s in steps[..n - 2] && NextStepWeight(cfg, s) <= 0;
        assert s in steps[..n - 1];
      }
    }
  }

  /** For a list within 1..100 that keeps 100 for the end, the guard passes at every weight of
      the list exactly if the list is strictly increasing. */
  lemma GuardPassesExactly(cfg: Config)
    requires cfg.stepWeight <= 0 && |cfg.stepWeights| > 0
    requires forall s <- cfg.stepWeights :: 1 <= s <= TOTAL_WEIGHT
    requires forall i :: 0 <= i < |cfg.stepWeights| - 1 ==> cfg.stepWeights[i] != TOTAL_WEIGHT
    ensures (forall s <- cfg.stepWeights :: NextStepWeight(cfg, s) > 0) <==> StrictlyIncreasing(cfg.stepWeights)
  {
    var steps := cfg.stepWeights;
    assert forall i :: 0 <= i < |steps| ==> steps[i] in steps;
    HeldUpAtTheDescent(cfg, |steps|);
    assert steps[..|steps|] == steps;
    assert forall s <- steps[..|steps| - 1] :: s in steps;
    forall s | s in steps {
      StepIndexMeans(steps, s, 0);
    }
  }

  /** The routes after `k` advances. */
  function Climb(cfg: Config, r: Routes, k: nat): Routes {
    if k == 0 then r else Advanced(cfg, Climb(cfg, r, k - 1))
  }

  /** Where the first step with weight starts: after the mirror step, if there is one. */
  function Foot(cfg: Config): Routes {
    Routes(TOTAL_WEIGHT, 0, cfg.mirror)
  }

  /** With a step list, the k-th advance sets the canary to the k-th entry, or to 100, as long as
      the list has increased so far and not got there before. */
  lemma {:induction false} ClimbFollowsTheList(cfg: Config, k: nat)
    requires cfg.stepWeight <= 0 && 1 <= k <= |cfg.stepWeights| && Rises(cfg.stepWeights, k)
    requires cfg.stepWeights[0] >= 1 && forall i :: 0 <= i < k - 1 ==> cfg.stepWeights[i] < TOTAL_WEIGHT
    ensures var s := Min(TOTAL_WEIGHT, cfg.stepWeights[k - 1]);
            Climb(cfg, Foot(cfg), k) == Routes(TOTAL_WEIGHT - s, s, false)
  {
    if k == 1 {
      assert Climb(cfg, Foot(cfg), 0) == Foot(cfg);
    } else {
      ClimbFollowsTheList(cfg, k - 1);
      FoundWhereItStands(cfg.stepWeights, k - 2, 0);
    }
  }

  /** With a fixed step, the k-th advance sets the canary to k steps, or to 100. */
  lemma {:induction false} ClimbFollowsTheStep(cfg: Config, k: nat)
    requires cfg.stepWeight > 0 && SoundSteps(cfg) && k >= 1
    ensures var s := Min(TOTAL_WEIGHT, k * cfg.stepWeight);
            Climb(cfg, Foot(cfg), k) == Routes(TOTAL_WEIGHT - s, s, false)
  {
    if k == 1 {
      assert Climb(cfg, Foot(cfg), 0) == Foot(cfg);
    } else {
      ClimbFollowsTheStep(cfg, k - 1);
      assert k * cfg.stepWeight == (k - 1) * cfg.stepWeight + cfg.stepWeight;
      assert (k - 1) * cfg.stepWeight > 0;
    }
  }

  /** An advance made below the maximum weight overshoots it by less than one step. */
  lemma OvershootIsBounded(cfg: Config, k: nat)
    requires cfg.stepWeight > 0 && SoundSteps(cfg) && k >= 1
    requires Climb(cfg, Foot(cfg), k - 1).canary < MaxWeight(cfg) <= TOTAL_WEIGHT
    ensures Climb(cfg, Foot(cfg), k).canary <= Min(TOTAL_WEIGHT, MaxWeight(cfg) + cfg.stepWeight - 1)
  {
    ClimbFollowsTheStep(cfg, k);
    if k > 1 {
      ClimbFollowsTheStep(cfg, k - 1);
      assert k * cfg.stepWeight == (k - 1) * cfg.stepWeight + cfg.stepWeight;
    } else {
      assert Climb(cfg, Foot(cfg), 0) == Foot(cfg);
    }
  }

  /** The advances left before promotion, the promoting tick included. */
  function RampLeft(cfg: Config, r: Routes): (n: nat)
    requires Climbs(cfg) && Balanced(cfg, r)
    ensures n >= 1
    decreases TOTAL_WEIGHT - r.canary, if r.mirrored then 0 else 1
  {
    if r.canary >= MaxWeight(cfg) then 1
    else
      StepIsPositive(cfg, r.canary);
      AdvanceBalances(cfg, r);
      1 + RampLeft(cfg, Advanced(cfg, r))
  }

  /** The weight at which the ramp ends. */
  function Top(cfg: Config, r: Routes): (c: int)
    requires Climbs(cfg) && Balanced(cfg, r)
    ensures MaxWeight(cfg) <= c
    decreases TOTAL_WEIGHT - r.canary, if r.mirrored then 0 else 1
  {
    if r.canary >= MaxWeight(cfg) then r.canary
    else
      StepIsPositive(cfg, r.canary);
      AdvanceBalances(cfg, r);
      Top(cfg, Advanced(cfg, r))
  }

  /** Climbing k steps below the maximum uses up k of the advances left. */
  lemma {:induction false} ClimbUsesUp(cfg: Config, r: Routes, k: nat)
    requires Climbs(cfg) && Balanced(cfg, r)
    requires forall i: nat | i < k :: Climb(cfg, r, i).canary < MaxWeight(cfg)
    ensures Balanced(cfg, Climb(cfg, r, k)) && RampLeft(cfg, r) == k + RampLeft(cfg, Climb(cfg, r, k))
    ensures Top(cfg, r) == Top(cfg, Climb(cfg, r, k))
  {
    if k > 0 {
      ClimbUsesUp(cfg, r, k - 1);
      StepIsPositive(cfg, Climb(cfg, r, k - 1).canary);
      AdvanceBalances(cfg, Climb(cfg, r, k - 1));
    }
  }

  /** A step list takes one advance for each entry, and ends at its last one. */
  lemma RampLengthOfList(cfg: Config)
    requires Climbs(cfg) && ClimbsByList(cfg)
    ensures RampLeft(cfg, Foot(cfg)) == |cfg.stepWeights| + 1
    ensures Top(cfg, Foot(cfg)) == cfg.stepWeights[|cfg.stepWeights| - 1]
  {
    var n := |cfg.stepWeights|;
    forall i: nat | i < n
      ensures Climb(cfg, Foot(cfg), i).canary < MaxWeight(cfg)
    {
      if i > 0 {
        ClimbFollowsTheList(cfg, i);
      }
    }
    ClimbUsesUp(cfg, Foot(cfg), n);
    ClimbFollowsTheList(cfg, n);
  }

  lemma Scaled(i: nat, n: nat, step: nat)
    requires i <= n
    ensures i * step <= n * step
  {
    var ahead: nat := n - i;
    assert n * step == i * step + ahead * step;
  }

  /** Every advance before the n-th is made below the maximum weight. */
  lemma ClimbStaysBelow(cfg: Config, n: nat, i: nat)
    requires cfg.stepWeight > 0 && SoundSteps(cfg) && 1 <= MaxWeight(cfg)
    requires i < n && (n - 1) * cfg.stepWeight < MaxWeight(cfg)
    ensures Climb(cfg, Foot(cfg), i).canary < MaxWeight(cfg)
  {
    if i > 0 {
      ClimbFollowsTheStep(cfg, i);
      Scaled(i, n - 1, cfg.stepWeight);
    }
  }

  /** A fixed step takes as many advances as it takes steps to reach the maximum weight. */
  lemma RampLengthOfStep(cfg: Config, n: nat)
    requires Climbs(cfg) && SoundSteps(cfg) && cfg.stepWeight > 0
    requires n >= 1 && (n - 1) * cfg.stepWeight < MaxWeight(cfg) <= n * cfg.stepWeight
    ensures RampLeft(cfg, Foot(cfg)) == n + 1
    ensures Top(cfg, Foot(cfg)) == Min(TOTAL_WEIGHT, n * cfg.stepWeight)
  {
    forall i: nat | i < n
      ensures Climb(cfg, Foot(cfg), i).canary < MaxWeight(cfg)
    {
      ClimbStaysBelow(cfg, n, i);
    }
    ClimbUsesUp(cfg, Foot(cfg), n);
    ClimbFollowsTheStep(cfg, n);
  }

  /** Back to the primary by steps of `q`: the routes after `k` of them. */
  function Descent(r: Routes, q: int, k: nat): Routes {
    if k == 0 then r else ShiftedBack(Descent(r, q, k - 1), q)
  }

  /** The promotion ticks needed to take weight `c` back by steps of `q`. */
  function DescentTicks(c: int, q: int): nat
    requires q > 0
  {
    if c <= 0 then 0 else 1 + DescentTicks(c - q, q)
  }

  /** The number of ticks is c / q, rounded up. */
  lemma {:induction false} DescentTicksIsCeiling(c: int, q: int)
    requires q > 0 && c >= 0
    ensures var n := DescentTicks(c, q); (n - 1) * q < c <= n * q || (c == n == 0)
  {
    if c > 0 {
      if c > q {
        DescentTicksIsCeiling(c - q, q);
        var n := DescentTicks(c, q);
        assert n * q == (n - 1) * q + q;
        assert (n - 1) * q == (n - 2) * q + q;
      } else {
        assert DescentTicks(c - q, q) == 0;
      }
    }
  }

  /** Each step takes `q` off the canary until nothing is left. */
  lemma {:induction false} DescentIsLinear(r: Routes, q: int, k: nat)
    requires r.primary + r.canary == TOTAL_WEIGHT && r.canary > 0 && q > 0 && k >= 1
    ensures var c := Max(r.canary - k * q, 0);
            Descent(r, q, k) == Routes(TOTAL_WEIGHT - c, c, false)
  {
    if k > 1 {
      DescentIsLinear(r, q, k - 1);
      assert k * q == (k - 1) * q + q;
    } else {
      assert Descent(r, q, 0) == r;
    }
  }
}
