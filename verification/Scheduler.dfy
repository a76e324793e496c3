// The scheduler's methods, in the order and with the early exits of
// pkg/controller/scheduler.go and pkg/controller/scheduler_hooks.go. Each is proved to do
// to the API objects what its program in module Tick does.

module Scheduler {
  import opened Options
  import opened CanaryStatus
  import opened CanarySpec
  import opened Analysis
  import opened Cluster
  import opened ConfigTracker
  import opened Tick

  class Controller {
    const cfg: Config
    const api: Api

    constructor (api: Api)
      ensures this.api == api && cfg == api.cfg
    {
      this.api := api;
      this.cfg := api.cfg;
    }

    /** The plan has been carried out: it led where it was bound to lead. */
    twostate predicate Finished()
      reads api
    {
      api.plan == Halt && api.Outlook() == old(api.Outlook())
    }

    /** The plan has been carried out up to `next`, or to its end if the tick stops here. */
    twostate predicate Reached(stopped: bool, next: Program)
      reads api
    {
      api.plan == (if stopped then Halt else next) && api.Outlook() == old(api.Outlook())
    }

    // ------------------------------------------------------------------ hooks

    method HooksApprove(inp: Input, hook: Hook) returns (ok: bool)
      ensures ok <==> AllApprove(cfg, inp, hook)
    {
      for i := 0 to |cfg.hooks|
        invariant forall j: nat | j < i && cfg.hooks[j] == hook :: j in inp.approving
      {
        if cfg.hooks[i] == hook && i !in inp.approving {
          return false;
        }
      }
      return true;
    }

    method RunRollbackHooks(inp: Input) returns (rollback: bool)
      ensures rollback <==> AnyApproves(cfg, inp, Rollback)
    {
      for i := 0 to |cfg.hooks|
        invariant forall j: nat | j < i && cfg.hooks[j] == Rollback :: j !in inp.approving
      {
        if cfg.hooks[i] == Rollback && i in inp.approving {
          return true;
        }
      }
      return false;
    }

    method RunConfirmRolloutHooks(cd: Status, inp: Input, ghost w: World, ghost next: Move) returns (open: bool)
      requires cfg == api.cfg && cd == w.status
      requires api.plan == ProgramOf(GateMove(cfg, inp, w, next))
      modifies api
      ensures Reached(!open, ProgramOf(next))
      ensures open ==> api.View() == old(api.View())
    {
      for i := 0 to |cfg.hooks|
        invariant unchanged(api)
        invariant forall j: nat | j < i && cfg.hooks[j] == ConfirmRollout :: j in inp.approving && cd.phase != Waiting
      {
        if cfg.hooks[i] == ConfirmRollout {
          if i !in inp.approving {
            if cd.phase != Waiting {
              var _ := api.SetStatusPhase(Waiting);
            }
            return false;
          }
          if cd.phase == Waiting {
            var ok := api.SetStatusPhase(Progressing);
            if ok {
              ok := api.ScaleFromZero();
            }
            return false;
          }
        }
      }
      return true;
    }

    method RunConfirmPromotionHooks(cd: Status, inp: Input, ghost w: World, ghost next: Move) returns (open: bool)
      requires cfg == api.cfg && cd == w.status
      requires api.plan == ProgramOf(PromotionGate(cfg, inp, w, next))
      modifies api
      ensures Reached(!open, ProgramOf(next))
    {
      for i := 0 to |cfg.hooks|
        invariant unchanged(api)
        invariant forall j: nat | j < i && cfg.hooks[j] == ConfirmPromotion :: j in inp.approving
      {
        if cfg.hooks[i] == ConfirmPromotion && i !in inp.approving {
          if cd.phase != WaitingPromotion {
            var _ := api.SetStatusPhase(WaitingPromotion);
          }
          return false;
        }
      }
      return true;
    }

    method RunAnalysis(inp: Input) returns (ok: bool)
      ensures ok <==> AnalysisPasses(cfg, inp)
    {
      ok := HooksApprove(inp, Rollout);
      if !ok {
        return;
      }
      ok := inp.metricsPass;
    }

    // ------------------------------------------------------- ends of a rollout

    method RollBack()
      requires cfg == api.cfg
      requires api.plan == ProgramOf(Move.RollBack)
      modifies api
      ensures Finished()
    {
      var ok := api.SetRoutes(TOTAL_WEIGHT, 0, false);
      if !ok {
        return;
      }
      ok := api.ScaleToZero();
      if !ok {
        return;
      }
      var _ := api.SyncStatus(Failed);
    }

    method PromoteCanary()
      requires cfg == api.cfg
      requires api.plan == ProgramOf(Move.PromoteCanary)
      modifies api
      ensures Finished()
    {
      var ok := api.CopyConfigs();
      if !ok {
        return;
      }
      ok := api.Promote();
      if !ok {
        return;
      }
      var _ := api.SetStatusPhase(Promoting);
    }

    method RunPromotionTrafficShift(canaryWeight: int, primaryWeight: int, ghost mirrored: bool)
      requires cfg == api.cfg
      requires api.plan == ProgramOf(PromotionShift(cfg, Routes(primaryWeight, canaryWeight, mirrored)))
      modifies api
      ensures Finished()
    {
      if cfg.provider.Kubernetes? {
        var _ := api.SetStatusPhase(Finalising);
        return;
      }
      if cfg.stepWeightPromotion == 0 {
        var ok := api.SetRoutes(TOTAL_WEIGHT, 0, false);
        if !ok {
          return;
        }
        var _ := api.SetStatusPhase(Finalising);
        return;
      }
      if canaryWeight > 0 {
        var primaryWeight := primaryWeight + cfg.stepWeightPromotion;
        if primaryWeight > TOTAL_WEIGHT {
          primaryWeight := TOTAL_WEIGHT;
        }
        var canaryWeight := canaryWeight - cfg.stepWeightPromotion;
        if canaryWeight < 0 {
          canaryWeight := 0;
        }
        var ok := api.SetRoutes(primaryWeight, canaryWeight, false);
        if !ok {
          return;
        }
        if primaryWeight == TOTAL_WEIGHT {
          var _ := api.SetStatusPhase(Finalising);
        } else {
          var _ := api.SetStatusWeight(canaryWeight);
        }
      }
    }

    // -------------------------------------------------------------- strategies

    method RunCanary(cd: Status, inp: Input, mirrored: bool, canaryWeight: int, primaryWeight: int, ghost w: World)
      requires cfg == api.cfg && cd == w.status
      requires Routes(primaryWeight, canaryWeight, mirrored) == Tick.GetRoutes(cfg, w)
      requires api.plan == ProgramOf(CanaryMove(cfg, inp, w))
      modifies api
      ensures Finished()
    {
      if canaryWeight < MaxWeight(cfg) {
        var mirrored, primaryWeight, canaryWeight := mirrored, primaryWeight, canaryWeight;
        var nextStepWeight := FindNextStepWeight(cfg, canaryWeight);
        if cfg.mirror && canaryWeight == 0 {
          if !mirrored {
            mirrored := true;
            primaryWeight := TOTAL_WEIGHT;
            canaryWeight := 0;
          } else {
            mirrored := false;
            primaryWeight := TOTAL_WEIGHT - nextStepWeight;
            canaryWeight := nextStepWeight;
          }
        } else {
          primaryWeight := primaryWeight - nextStepWeight;
          if primaryWeight < 0 {
            primaryWeight := 0;
          }
          canaryWeight := canaryWeight + nextStepWeight;
          if canaryWeight > TOTAL_WEIGHT {
            canaryWeight := TOTAL_WEIGHT;
          }
        }
        var ok := api.SetRoutes(primaryWeight, canaryWeight, mirrored);
        if !ok {
          return;
        }
        var _ := api.SetStatusWeight(canaryWeight);
        return;
      }
      var promote := RunConfirmPromotionHooks(cd, inp, w, Move.PromoteCanary);
      if !promote {
        return;
      }
      PromoteCanary();
    }

    method RunAB(cd: Status, inp: Input, ghost w: World)
      requires cfg == api.cfg && cd == w.status
      requires api.plan == ProgramOf(ABTestMove(cfg, inp, w))
      modifies api
      ensures Finished()
    {
      if Iterations(cfg) > cd.iterations {
        var ok := api.SetRoutes(0, TOTAL_WEIGHT, false);
        if !ok {
          return;
        }
        var _ := api.SetStatusIterations(cd.iterations + 1);
        return;
      }
      var promote := RunConfirmPromotionHooks(cd, inp, w,
        if Iterations(cfg) == cd.iterations then Move.PromoteCanary else Rest);
      if !promote {
        return;
      }
      if Iterations(cfg) == cd.iterations {
        PromoteCanary();
      }
    }

    method RunBlueGreen(cd: Status, inp: Input, mirrored: bool, ghost w: World)
      requires cfg == api.cfg && cd == w.status && mirrored == Tick.GetRoutes(cfg, w).mirrored
      requires api.plan == ProgramOf(BlueGreenMove(cfg, inp, w))
      modifies api
      ensures Finished()
    {
      if Iterations(cfg) > cd.iterations {
        if !cfg.provider.Kubernetes? && cfg.mirror && !mirrored {
          var _ := api.SetRoutes(TOTAL_WEIGHT, 0, true);
        }
        var _ := api.SetStatusIterations(cd.iterations + 1);
        return;
      }
      var promote := RunConfirmPromotionHooks(cd, inp, w,
        if Iterations(cfg) < cd.iterations then Move.PromoteCanary
        else if !cfg.provider.Kubernetes? then AdvanceTo(ALL_TO_CANARY, SetStatusIterations(cd.iterations + 1))
        else Count(cd.iterations + 1));
      if !promote {
        return;
      }
      if Iterations(cfg) == cd.iterations {
        if !cfg.provider.Kubernetes? {
          var ok := api.SetRoutes(0, TOTAL_WEIGHT, false);
          if !ok {
            return;
          }
        }
        var _ := api.SetStatusIterations(cd.iterations + 1);
        return;
      }
      if Iterations(cfg) < cd.iterations {
        PromoteCanary();
      }
    }

    // ---------------------------------------------------------------- the tick

    method ShouldSkipAnalysis(cd: Status, inp: Input, ghost w: World, ghost rest: Move) returns (skip: bool)
      requires cfg == api.cfg && cd == w.status
      requires api.plan == ProgramOf(SkipMove(cfg, inp, w, rest))
      modifies api
      ensures Reached(skip, ProgramOf(rest))
    {
      if !cfg.skipAnalysis {
        return false;
      }
      if inp.readiness.Stuck? || cd.failedChecks >= Threshold(cfg) {
        RollBack();
        return true;
      }
      skip := SkipToPromotion(rest);
    }

    /** The calls that take the place of the analysis. */
    method SkipToPromotion(ghost rest: Move) returns (done: bool)
      requires cfg == api.cfg && api.plan == ProgramOf(Skip(rest))
      modifies api
      ensures Reached(done, ProgramOf(rest))
    {
      var ok := api.SetRoutes(TOTAL_WEIGHT, 0, false);
      if !ok {
        return false;
      }
      ok := api.CopyConfigs();
      if !ok {
        return false;
      }
      ok := api.Promote();
      if !ok {
        return false;
      }
      ok := api.ScaleToZero();
      if !ok {
        return false;
      }
      ok := api.SetStatusPhase(Succeeded);
      return ok;
    }

    method CheckCanaryStatus(cd: Status, inp: Input, ghost w: World) returns (inAnalysis: bool)
      requires cfg == api.cfg && cd == w.status
      requires !InAnalysis(cd.phase) ==> api.plan == ProgramOf(StatusMove(inp, w))
      modifies api
      ensures inAnalysis == InAnalysis(cd.phase)
      ensures if inAnalysis then unchanged(api) else Finished()
    {
      if cd.phase == Progressing || cd.phase == WaitingPromotion || cd.phase == Promoting || cd.phase == Finalising {
        return true;
      }
      if !inp.statusRead {
        return false;
      }
      if cd.phase == Unset || cd.phase == Initializing {
        var _ := api.SyncStatus(Initialized);
        return false;
      }
      var ok := api.ScaleFromZero();
      if ok {
        ok := api.SyncStatus(Progressing);
      }
      return false;
    }

    method HasCanaryRevisionChanged(cd: Status, inp: Input, ghost w: World) returns (changed: bool)
      requires cd == w.status && api.target == w.target
      ensures changed == RevisionChanged(inp, w)
    {
      if cd.phase == Progressing || cd.phase == WaitingPromotion {
        if inp.targetReread && HasSpecChanged(cd, api.target.template) {
          return true;
        }
        if inp.configsReread && HasConfigChanged(cd.trackedConfigs, api.target.configs) {
          return true;
        }
      }
      return false;
    }

    method CheckShouldAdvance(cd: Status, inp: Input, ghost w: World) returns (advance: bool)
      requires cd == w.status && api.target == w.target
      ensures advance == ShouldAdvance(inp, w)
    {
      if cd.lastAppliedSpec.None? || cd.phase == Initializing || cd.phase == Progressing || cd.phase == Waiting ||
         cd.phase == WaitingPromotion || cd.phase == Promoting || cd.phase == Finalising {
        return true;
      }
      if !inp.targetRead {
        return false;
      }
      if HasSpecChanged(cd, api.target.template) {
        return true;
      }
      if !inp.configsRead {
        return false;
      }
      return HasConfigChanged(cd.trackedConfigs, api.target.configs);
    }

    /** DeploymentController.Initialize; false ends the tick. */
    method Initialize(cd: Status, inp: Input, ghost w: World, ghost next: Program) returns (ok: bool)
      requires cfg == api.cfg && cd == w.status && api.View() == w
      requires api.plan == InitializeProgram(cfg, inp, w, next)
      modifies api
      ensures Reached(!ok, next)
      ensures api.target == w.target && api.routes == w.routes
    {
      if api.primary.None? {
        ok := api.CreatePrimary();
        if !ok {
          return;
        }
      }
      if cd.phase == Unset || cd.phase == Initializing {
        if !cfg.skipAnalysis && !inp.primaryReadyAtInit {
          return false;
        }
        ok := api.ScaleToZero();
        return;
      }
      return true;
    }

    /** From the rollback hooks on, with the routes read before. */
    method Judge(cd: Status, inp: Input, primaryWeight: int, canaryWeight: int, mirrored: bool, ghost w: World)
      requires cfg == api.cfg && cd == w.status
      requires Routes(primaryWeight, canaryWeight, mirrored) == Tick.GetRoutes(cfg, w)
      requires api.plan == ProgramOf(JudgeMove(cfg, inp, w))
      modifies api
      ensures Finished()
    {
      if cd.phase == Progressing || cd.phase == Waiting || cd.phase == WaitingPromotion {
        var ok := RunRollbackHooks(inp);
        if ok {
          RollBack();
          return;
        }
      }
      if cd.phase == Promoting {
        RunPromotionTrafficShift(canaryWeight, primaryWeight, mirrored);
        return;
      }
      if cd.phase == Finalising {
        var ok := api.ScaleToZero();
        if ok {
          ok := api.SetStatusPhase(Succeeded);
        }
        return;
      }
      if cd.phase == Progressing && (inp.readiness.Stuck? || cd.failedChecks >= Threshold(cfg)) {
        RollBack();
        return;
      }
      var ok;
      if canaryWeight == 0 && cd.iterations == 0 && !(cfg.mirror && mirrored) {
        ok := HooksApprove(inp, PreRollout);
      } else {
        ok := RunAnalysis(inp);
      }
      if !ok {
        var _ := api.SetStatusFailedChecks(cd.failedChecks + 1);
        return;
      }
      if IsABTest(cfg) {
        RunAB(cd, inp, w);
        return;
      }
      if Iterations(cfg) > 0 {
        RunBlueGreen(cd, inp, mirrored, w);
        return;
      }
      var step := FindNextStepWeight(cfg, canaryWeight);
      if step > 0 {
        if !mirrored {
          var promote := HooksApprove(inp, ConfirmTrafficIncrease);
          if !promote {
            return;
          }
        }
        RunCanary(cd, inp, mirrored, canaryWeight, primaryWeight, w);
      }
    }

    method AdvanceCanary(inp: Input)
      requires cfg == api.cfg
      modifies api
      ensures api.View() == Exec(cfg, TickProgram(cfg, inp, old(api.View())), old(api.faults), old(api.View()))
    {
      ghost var w := api.View();
      api.plan := TickProgram(cfg, inp, w);
      var cd := api.status;
      if !inp.bootstrapped {
        return;
      }
      ghost var analyse := AnalyseMove(cfg, inp, w);
      var ok := Initialize(cd, inp, w, ProgramOf(TickMove(cfg, inp, w)));
      if !ok || !inp.reconciled {
        return;
      }
      ok := CheckShouldAdvance(cd, inp, w);
      if !ok {
        return;
      }
      ok := RunConfirmRolloutHooks(cd, inp, w, analyse);
      if !ok {
        return;
      }
      if !cfg.skipAnalysis && !inp.primaryReady {
        return;
      }
      if !inp.routesRead {
        return;
      }
      var r := if cfg.provider.Kubernetes? then (if cd.iterations > 0 then ALL_TO_CANARY else ALL_TO_PRIMARY)
               else api.routes;
      ok := CheckCanaryStatus(cd, inp, w);
      if !ok {
        return;
      }
      var restart := HasCanaryRevisionChanged(cd, inp, w);
      if restart {
        ok := api.SetRoutes(TOTAL_WEIGHT, 0, false);
        if ok {
          ok := api.SyncStatus(Progressing);
        }
        return;
      }
      if inp.readiness.NotYet? {
        return;
      }
      var skip := ShouldSkipAnalysis(cd, inp, w, JudgeMove(cfg, inp, w));
      if skip {
        return;
      }
      Judge(cd, inp, r.primary, r.canary, r.mirrored, w);
    }
  }
}
