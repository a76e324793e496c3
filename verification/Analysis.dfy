// The analysis section of a Canary (pkg/apis/flagger/v1beta1/canary.go) and the weight
// arithmetic of pkg/controller/scheduler.go.

module Analysis {
  /** Webhook types; a webhook without a type counts as a rollout hook. */
  datatype Hook =
    | Rollout
    | PreRollout
    | PostRollout
    | ConfirmRollout
    | ConfirmPromotion
    | ConfirmTrafficIncrease
    | Rollback
    | Event

  /** The kubernetes provider has a router that stores nothing; every other router stores
      weights, and some store the mirror flag. */
  datatype Provider = Kubernetes | Mesh(storesMirror: bool)

  datatype Config = Config(
    provider: Provider,
    skipAnalysis: bool,
    threshold: int,
    iterations: int,
    mirror: bool,
    maxWeight: int,
    stepWeight: int,
    stepWeights: seq<int>,
    stepWeightPromotion: int,
    hasMatch: bool,
    hooks: seq<Hook>)

  const TOTAL_WEIGHT := 100

  function Min(a: int, b: int): int {
    if a < b then a else b
  }

  function Max(a: int, b: int): int {
    if a < b then b else a
  }

  function Threshold(cfg: Config): int {
    if cfg.threshold > 0 then cfg.threshold else 1
  }

  function MaxWeight(cfg: Config): int {
    if |cfg.stepWeights| > 0 then Min(TOTAL_WEIGHT, cfg.stepWeights[|cfg.stepWeights| - 1])
    else if cfg.maxWeight > 0 then cfg.maxWeight
    else TOTAL_WEIGHT
  }

  /** The iteration count in force: the kubernetes provider falls back to ten. */
  function Iterations(cfg: Config): int {
    if cfg.provider.Kubernetes? && cfg.iterations < 1 then 10 else cfg.iterations
  }

  /** A/B testing needs a match condition, and a provider that can route by it. */
  predicate IsABTest(cfg: Config) {
    cfg.hasMatch && !cfg.provider.Kubernetes? && Iterations(cfg) > 0
  }

  predicate IsBlueGreen(cfg: Config) {
    !IsABTest(cfg) && Iterations(cfg) > 0
  }

  predicate IsProgressive(cfg: Config) {
    Iterations(cfg) <= 0
  }

  /** The first position before the last one, not before `from`, where `weight` stands. */
  function StepIndex(steps: seq<int>, weight: int, from: nat): (i: int)
    requires from <= |steps|
    ensures i == -1 || from <= i < |steps| - 1
    decreases |steps| - from
  {
    if from >= |steps| - 1 then -1
    else if steps[from] == weight then from
    else StepIndex(steps, weight, from + 1)
  }

  lemma {:induction false} StepIndexMeans(steps: seq<int>, weight: int, from: nat)
    requires from <= |steps|
    ensures var i := StepIndex(steps, weight, from);
            && (i >= 0 ==> steps[i] == weight)
            && forall j :: from <= j < (if i == -1 then |steps| - 1 else i) ==> steps[j] != weight
    decreases |steps| - from
  {
    if from < |steps| - 1 && steps[from] != weight {
      StepIndexMeans(steps, weight, from + 1);
    }
  }

  function NextStepWeight(cfg: Config, canaryWeight: int): int {
    if cfg.stepWeight > 0 || |cfg.stepWeights| == 0 then cfg.stepWeight
    else
      var maxStep := TOTAL_WEIGHT - canaryWeight;
      if maxStep == 0 then 1
      else if canaryWeight == 0 then Min(maxStep, cfg.stepWeights[0])
      else
        var i := StepIndex(cfg.stepWeights, canaryWeight, 0);
        if i >= 0 then Min(maxStep, cfg.stepWeights[i + 1] - canaryWeight) else maxStep
  }

  /** The source's loop over the step list. */
  method FindNextStepWeight(cfg: Config, canaryWeight: int) returns (step: int)
    ensures step == NextStepWeight(cfg, canaryWeight)
  {
    var n := |cfg.stepWeights|;
    if cfg.stepWeight > 0 || n == 0 {
      return cfg.stepWeight;
    }
    var maxStep := TOTAL_WEIGHT - canaryWeight;
    if maxStep == 0 {
      return 1;
    }
    if canaryWeight == 0 {
      return Min(maxStep, cfg.stepWeights[0]);
    }
    StepIndexMeans(cfg.stepWeights, canaryWeight, 0);
    for i := 0 to n - 1
      invariant forall j :: 0 <= j < i ==> cfg.stepWeights[j] != canaryWeight
    {
      if cfg.stepWeights[i] == canaryWeight {
        return Min(maxStep, cfg.stepWeights[i + 1] - canaryWeight);
      }
    }
    return maxStep;
  }
}
