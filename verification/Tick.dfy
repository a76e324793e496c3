// What one call of advanceCanary does, as a program of API calls computed from the state
// at the start of the tick and from everything the tick observes
// (pkg/controller/scheduler.go, pkg/controller/scheduler_hooks.go).

module Tick {
  import opened Options
  import opened CanaryStatus
  import opened CanarySpec
  import opened Analysis
  import opened Cluster
  import opened ConfigTracker

  datatype Readiness = Ready | NotYet | Stuck

  /** What a tick observes. A webhook answers with success iff its index is in `approving`;
      the `...Read` fields say whether a read succeeds. */
  datatype Input = Input(
    bootstrapped: bool,
    primaryReadyAtInit: bool,
    reconciled: bool,
    targetRead: bool,
    configsRead: bool,
    primaryReady: bool,
    routesRead: bool,
    statusRead: bool,
    targetReread: bool,
    configsReread: bool,
    readiness: Readiness,
    approving: set<nat>,
    metricsPass: bool)

  // ---------------------------------------------------------------------------
  // Webhooks
  // ---------------------------------------------------------------------------

  predicate AllApprove(cfg: Config, inp: Input, hook: Hook) {
    forall i: nat | i < |cfg.hooks| && cfg.hooks[i] == hook :: i in inp.approving
  }

  predicate AnyApproves(cfg: Config, inp: Input, hook: Hook) {
    exists i: nat | i < |cfg.hooks| && cfg.hooks[i] == hook :: i in inp.approving
  }

  /** The first webhook of a type exists and approves. */
  predicate FirstApproves(cfg: Config, inp: Input, hook: Hook) {
    exists i: nat | i < |cfg.hooks| && cfg.hooks[i] == hook ::
      i in inp.approving && forall j: nat | j < i :: cfg.hooks[j] != hook
  }

  predicate AnalysisPasses(cfg: Config, inp: Input) {
    AllApprove(cfg, inp, Rollout) && inp.metricsPass
  }

  // ---------------------------------------------------------------------------
  // Observations of the state
  // ---------------------------------------------------------------------------

  predicate Analysing(phase: Phase) {
    phase.Progressing? || phase.WaitingPromotion?
  }

  predicate TargetChanged(w: World) {
    HasSpecChanged(w.status, w.target.template)
  }

  predicate ConfigsChanged(w: World) {
    HasConfigChanged(w.status.trackedConfigs, w.target.configs)
  }

  predicate ShouldAdvance(inp: Input, w: World) {
    || w.status.lastAppliedSpec.None?
    || w.status.phase.Initializing? || w.status.phase.Waiting? || InAnalysis(w.status.phase)
    || (inp.targetRead && (TargetChanged(w) || (inp.configsRead && ConfigsChanged(w))))
  }

  /** A failed read counts as no change. */
  predicate RevisionChanged(inp: Input, w: World) {
    && Analysing(w.status.phase)
    && ((inp.targetReread && TargetChanged(w)) || (inp.configsReread && ConfigsChanged(w)))
  }

  /** The router of the kubernetes provider derives weights from the iteration count. */
  function GetRoutes(cfg: Config, w: World): Routes {
    if cfg.provider.Kubernetes? then (if w.status.iterations > 0 then ALL_TO_CANARY else ALL_TO_PRIMARY)
    else w.routes
  }

  /** Nothing reaches the canary yet, so there is nothing to analyse. */
  predicate AnalysisNotStarted(cfg: Config, w: World) {
    var r := GetRoutes(cfg, w);
    r.canary == 0 && w.status.iterations == 0 && !(cfg.mirror && r.mirrored)
  }

  /** Pre-rollout hooks before the first step, the analysis afterwards. */
  predicate ChecksPass(cfg: Config, inp: Input, w: World) {
    if AnalysisNotStarted(cfg, w) then AllApprove(cfg, inp, PreRollout) else AnalysisPasses(cfg, inp)
  }

  predicate ThresholdReached(cfg: Config, w: World) {
    w.status.failedChecks >= Threshold(cfg)
  }

  // ---------------------------------------------------------------------------
  // Moves
  // ---------------------------------------------------------------------------

  /** What a tick decides to do. */
  datatype Move =
    | Rest
    | AwaitRollout
    | Wake
    | Settle
    | Start
    | Restart
    | RollBack
    | CountFailure(checks: int)
    | AdvanceTo(routes: Routes, counter: Call)
    | Count(iterations: int)
    | MirrorAndCount(iterations: int)
    | AwaitPromotion
    | PromoteCanary
    | Finalise(routed: bool)
    | Complete
    | Skip(otherwise: Move)

  /** One call whose failure ends the tick. */
  function Then(c: Call, next: Program): Program {
    Do(c, next, Halt)
  }

  /** The calls a move is made of, in the order of the source. */
  function ProgramOf(move: Move): Program {
    match move
    case Rest => Halt
    case AwaitRollout => Then(SetStatusPhase(Waiting), Halt)
    case Wake => Then(SetStatusPhase(Progressing), Then(ScaleFromZero, Halt))
    case Settle => Then(SyncStatus(Initialized), Halt)
    case Start => Then(ScaleFromZero, Then(SyncStatus(Progressing), Halt))
    case Restart => Then(SetRoutes(ALL_TO_PRIMARY), Then(SyncStatus(Progressing), Halt))
    case RollBack => Then(SetRoutes(ALL_TO_PRIMARY), Then(ScaleToZero, Then(SyncStatus(Failed), Halt)))
    case CountFailure(n) => Then(SetStatusFailedChecks(n), Halt)
    case AdvanceTo(r, counter) => Then(SetRoutes(r), Then(counter, Halt))
    case Count(n) => Then(SetStatusIterations(n), Halt)
    case MirrorAndCount(n) =>
      // a failure to start mirroring does not stop the iteration
      var count := Then(SetStatusIterations(n), Halt);
      Do(SetRoutes(Routes(TOTAL_WEIGHT, 0, true)), count, count)
    case AwaitPromotion => Then(SetStatusPhase(WaitingPromotion), Halt)
    case PromoteCanary => Then(CopyConfigs, Then(Promote, Then(SetStatusPhase(Promoting), Halt)))
    case Finalise(routed) =>
      var mark := Then(SetStatusPhase(Finalising), Halt);
      if routed then Then(SetRoutes(ALL_TO_PRIMARY), mark) else mark
    case Complete => Then(ScaleToZero, Then(SetStatusPhase(Succeeded), Halt))
    case Skip(otherwise) =>
      // with skipAnalysis a failing call does not end the tick
      var rest := ProgramOf(otherwise);
      Do(SetRoutes(ALL_TO_PRIMARY),
         Do(CopyConfigs,
            Do(Promote,
               Do(ScaleToZero,
                  Do(SetStatusPhase(Succeeded), Halt, rest), rest), rest), rest), rest)
  }

  /** The routes after one step of moving traffic back to the primary. */
  function ShiftedBack(r: Routes, step: int): Routes {
    Routes(Min(r.primary + step, TOTAL_WEIGHT), Max(r.canary - step, 0), false)
  }

  function PromotionShift(cfg: Config, r: Routes): Move {
    if cfg.provider.Kubernetes? then Finalise(false)
    else if cfg.stepWeightPromotion == 0 then Finalise(true)
    else if r.canary <= 0 then Rest
    else
      var next := ShiftedBack(r, cfg.stepWeightPromotion);
      AdvanceTo(next, if next.primary == TOTAL_WEIGHT then SetStatusPhase(Finalising)
                      else SetStatusWeight(next.canary))
  }

  /** Makes the move `approved` behind the confirm-promotion hooks. */
  function PromotionGate(cfg: Config, inp: Input, w: World, approved: Move): Move {
    if AllApprove(cfg, inp, ConfirmPromotion) then approved
    else if w.status.phase != WaitingPromotion then AwaitPromotion
    else Rest
  }

  /** The routes after one step of moving traffic to the canary. */
  function Advanced(cfg: Config, r: Routes): Routes {
    var step := NextStepWeight(cfg, r.canary);
    if cfg.mirror && r.canary == 0 then
      if !r.mirrored then Routes(TOTAL_WEIGHT, 0, true) else Routes(TOTAL_WEIGHT - step, step, false)
    else
      Routes(Max(r.primary - step, 0), Min(r.canary + step, TOTAL_WEIGHT), r.mirrored)
  }

  function CanaryMove(cfg: Config, inp: Input, w: World): Move {
    var r := GetRoutes(cfg, w);
    if r.canary < MaxWeight(cfg) then AdvanceTo(Advanced(cfg, r), SetStatusWeight(Advanced(cfg, r).canary))
    else PromotionGate(cfg, inp, w, PromoteCanary)
  }

  function ABTestMove(cfg: Config, inp: Input, w: World): Move {
    var n := w.status.iterations;
    if Iterations(cfg) > n then AdvanceTo(ALL_TO_CANARY, SetStatusIterations(n + 1))
    else PromotionGate(cfg, inp, w, if Iterations(cfg) == n then PromoteCanary else Rest)
  }

  function BlueGreenMove(cfg: Config, inp: Input, w: World): Move {
    var n := w.status.iterations;
    var stored := !cfg.provider.Kubernetes?;
    if Iterations(cfg) > n then
      if stored && cfg.mirror && !GetRoutes(cfg, w).mirrored then MirrorAndCount(n + 1) else Count(n + 1)
    else
      PromotionGate(cfg, inp, w,
                    if Iterations(cfg) < n then PromoteCanary
                    else if stored then AdvanceTo(ALL_TO_CANARY, SetStatusIterations(n + 1))
                    else Count(n + 1))
  }

  /** The strategies, once the checks of this tick have passed. */
  function StrategyMove(cfg: Config, inp: Input, w: World): Move {
    if IsABTest(cfg) then ABTestMove(cfg, inp, w)
    else if IsBlueGreen(cfg) then BlueGreenMove(cfg, inp, w)
    else
      var r := GetRoutes(cfg, w);
      if NextStepWeight(cfg, r.canary) > 0 && (r.mirrored || AllApprove(cfg, inp, ConfirmTrafficIncrease))
      then CanaryMove(cfg, inp, w)
      else Rest
  }

  /** From the rollback hooks to the end of the tick. */
  function JudgeMove(cfg: Config, inp: Input, w: World): Move {
    var phase := w.status.phase;
    if (Analysing(phase) || phase == Waiting) && AnyApproves(cfg, inp, Rollback) then RollBack
    else if phase == Promoting then PromotionShift(cfg, GetRoutes(cfg, w))
    else if phase == Finalising then Complete
    else if phase == Progressing && (inp.readiness.Stuck? || ThresholdReached(cfg, w)) then RollBack
    else if ChecksPass(cfg, inp, w) then StrategyMove(cfg, inp, w)
    else CountFailure(w.status.failedChecks + 1)
  }

  function SkipMove(cfg: Config, inp: Input, w: World, rest: Move): Move {
    if !cfg.skipAnalysis then rest
    else if inp.readiness.Stuck? || ThresholdReached(cfg, w) then RollBack
    else Skip(rest)
  }

  predicate InAnalysis(phase: Phase) {
    Analysing(phase) || phase.Promoting? || phase.Finalising?
  }

  predicate IsNew(phase: Phase) {
    phase.Unset? || phase.Initializing?
  }

  /** checkCanaryStatus outside an analysis: settle a new canary, or start a rollout. */
  function StatusMove(inp: Input, w: World): Move {
    if !inp.statusRead then Rest else if IsNew(w.status.phase) then Settle else Start
  }

  /** From the primary readiness check on. */
  function AnalyseMove(cfg: Config, inp: Input, w: World): Move {
    if (!cfg.skipAnalysis && !inp.primaryReady) || !inp.routesRead then Rest
    else if !InAnalysis(w.status.phase) then StatusMove(inp, w)
    else if RevisionChanged(inp, w) then Restart
    else if inp.readiness.NotYet? then Rest
    else SkipMove(cfg, inp, w, JudgeMove(cfg, inp, w))
  }

  /** The confirm-rollout hooks: a waiting rollout goes on at the first approval, any other
      tick needs all of them. */
  function GateMove(cfg: Config, inp: Input, w: World, open: Move): Move {
    if w.status.phase == Waiting && ConfirmRollout in cfg.hooks then
      if FirstApproves(cfg, inp, ConfirmRollout) then Wake else Rest
    else if AllApprove(cfg, inp, ConfirmRollout) then open
    else AwaitRollout
  }

  function TickMove(cfg: Config, inp: Input, w: World): Move {
    if inp.reconciled && ShouldAdvance(inp, w) then GateMove(cfg, inp, w, AnalyseMove(cfg, inp, w)) else Rest
  }

  /** Creates the primary when it is missing, and parks the canary of a new Canary object. */
  function InitializeProgram(cfg: Config, inp: Input, w: World, next: Program): Program {
    var park :=
      if !IsNew(w.status.phase) then next
      else if !cfg.skipAnalysis && !inp.primaryReadyAtInit then Halt
      else Then(ScaleToZero, next);
    if w.primary.None? then Then(CreatePrimary, park) else park
  }

  function TickProgram(cfg: Config, inp: Input, w: World): Program {
    if !inp.bootstrapped then Halt
    else InitializeProgram(cfg, inp, w, ProgramOf(TickMove(cfg, inp, w)))
  }

  // ---------------------------------------------------------------------------
  // Runs
  // ---------------------------------------------------------------------------

  /** Between ticks a user may replace the target: a new template, new configs, or both. */
  datatype Event =
    | Edit(target: Revision)
    | Advance(inp: Input, faults: seq<Outcome>)

  function Step(cfg: Config, e: Event, w: World): World {
    match e
    case Edit(target) => w.(target := target)
    case Advance(inp, faults) => Exec(cfg, TickProgram(cfg, inp, w), faults, w)
  }

  /** The world after the given events, oldest first. */
  function Run(cfg: Config, es: seq<Event>, w: World): World {
    if es == [] then w else Step(cfg, es[|es| - 1], Run(cfg, es[..|es| - 1], w))
  }

  /** Every world of a run, including those between two calls of a tick. */
  ghost predicate Occurs(cfg: Config, es: seq<Event>, w: World, v: World) {
    if es == [] then v == w
    else
      var before := Run(cfg, es[..|es| - 1], w);
      || Occurs(cfg, es[..|es| - 1], w, v)
      || match es[|es| - 1]
         case Edit(target) => v == before.(target := target)
         case Advance(inp, faults) => v in Visited(cfg, TickProgram(cfg, inp, before), faults, before)
  }

  /** Every call attempted in a run. */
  ghost predicate Makes(cfg: Config, es: seq<Event>, w: World, c: Call) {
    es != [] &&
    var before := Run(cfg, es[..|es| - 1], w);
    || Makes(cfg, es[..|es| - 1], w, c)
    || match es[|es| - 1]
       case Edit(_) => false
       case Advance(inp, faults) => c in Attempted(TickProgram(cfg, inp, before), faults)
  }

  /** Every tick of the run fails only in ways the model allows. */
  ghost predicate RunWithin(m: FaultModel, cfg: Config, es: seq<Event>, w: World) {
    es != [] ==>
      var before := Run(cfg, es[..|es| - 1], w);
      && RunWithin(m, cfg, es[..|es| - 1], w)
      && match es[|es| - 1]
         case Edit(_) => true
         case Advance(inp, faults) => Within(m, TickProgram(cfg, inp, before), faults)
  }

  /** A Canary object nobody has acted on yet, in front of routes that favour the primary. */
  ghost predicate Fresh(w: World) {
    && IsNew(w.status.phase)
    && w.status.failedChecks == w.status.canaryWeight == w.status.iterations == 0
    && w.status.lastAppliedSpec.None? && w.status.lastPromotedSpec.None? && w.status.trackedConfigs.None?
    && w.routes == ALL_TO_PRIMARY
    && w.primary.None?
  }
}
