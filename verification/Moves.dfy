// Which move a tick can decide on in which state, and the rule by which a contract that
// every justified move meets is met by every tick.

module Moves {
  import opened Options
  import opened CanaryStatus
  import opened Analysis
  import opened Cluster
  import opened Tick

  /** When the strategy has nothing left to do but to promote. */
  predicate PromotionDue(cfg: Config, w: World) {
    if IsABTest(cfg) then w.status.iterations == Iterations(cfg)
    else if IsBlueGreen(cfg) then w.status.iterations > Iterations(cfg)
    else NextStepWeight(cfg, GetRoutes(cfg, w).canary) > 0 && GetRoutes(cfg, w).canary >= MaxWeight(cfg)
  }

  /** The advances of the three strategies. */
  predicate IsAdvance(cfg: Config, inp: Input, w: World, r: Routes, counter: Call) {
    var now, n := GetRoutes(cfg, w), w.status.iterations;
    if IsProgressive(cfg) then
      && NextStepWeight(cfg, now.canary) > 0 && now.canary < MaxWeight(cfg)
      && r == Advanced(cfg, now) && counter == SetStatusWeight(r.canary)
    else
      && r == ALL_TO_CANARY && counter == SetStatusIterations(n + 1)
      && !cfg.provider.Kubernetes?
      && (if IsABTest(cfg) then n < Iterations(cfg)
          else n == Iterations(cfg) && AllApprove(cfg, inp, ConfirmPromotion))
  }

  /** The conditions common to every move of a strategy: a running analysis that passes. */
  predicate Passing(cfg: Config, inp: Input, w: World) {
    && Analysing(w.status.phase)
    && ChecksPass(cfg, inp, w)
    && (w.status.phase == Progressing ==> !ThresholdReached(cfg, w) && !inp.readiness.Stuck?)
  }

  /** The conditions a tick has checked when it decides on a move inside an analysis. */
  predicate Judged(cfg: Config, inp: Input, w: World) {
    InAnalysis(w.status.phase) && !RevisionChanged(inp, w) && !inp.readiness.NotYet?
  }

  ghost predicate Justified(cfg: Config, inp: Input, w: World, move: Move) {
    var phase, n := w.status.phase, w.status.iterations;
    match move
    case Rest => true
    case AwaitRollout => phase != Waiting && ShouldAdvance(inp, w) && ConfirmRollout in cfg.hooks
    case Wake => phase == Waiting
    case Settle => IsNew(phase)
    case Start => !InAnalysis(phase) && !IsNew(phase) && ShouldAdvance(inp, w)
    case Restart => RevisionChanged(inp, w)
    case RollBack => Judged(cfg, inp, w) && (!cfg.skipAnalysis ==> Analysing(phase))
    case CountFailure(checks) =>
      && Judged(cfg, inp, w) && checks == w.status.failedChecks + 1
      && Analysing(phase) && !ChecksPass(cfg, inp, w)
      && (phase == Progressing ==> !ThresholdReached(cfg, w))
    case AdvanceTo(r, counter) =>
      && Judged(cfg, inp, w)
      && if phase == Promoting then move == PromotionShift(cfg, GetRoutes(cfg, w))
         else Passing(cfg, inp, w) && IsAdvance(cfg, inp, w, r, counter)
    case Count(m) =>
      && Judged(cfg, inp, w) && Passing(cfg, inp, w) && IsBlueGreen(cfg) && m == n + 1
      && (n < Iterations(cfg) ||
          (n == Iterations(cfg) && AllApprove(cfg, inp, ConfirmPromotion) && cfg.provider.Kubernetes?))
    case MirrorAndCount(m) =>
      && Judged(cfg, inp, w) && Passing(cfg, inp, w) && IsBlueGreen(cfg) && m == n + 1 && n < Iterations(cfg)
      && cfg.mirror && !GetRoutes(cfg, w).mirrored && !cfg.provider.Kubernetes?
    case AwaitPromotion =>
      && Judged(cfg, inp, w) && Passing(cfg, inp, w)
      && phase != WaitingPromotion && !AllApprove(cfg, inp, ConfirmPromotion)
    case PromoteCanary =>
      && Judged(cfg, inp, w) && Passing(cfg, inp, w)
      && PromotionDue(cfg, w) && AllApprove(cfg, inp, ConfirmPromotion)
    case Finalise(routed) =>
      && Judged(cfg, inp, w) && phase == Promoting
      && routed == !cfg.provider.Kubernetes? && (routed ==> cfg.stepWeightPromotion == 0)
    case Complete => Judged(cfg, inp, w) && phase == Finalising
    case Skip(otherwise) =>
      && Judged(cfg, inp, w) && cfg.skipAnalysis
      && !otherwise.Skip? && Justified(cfg, inp, w, otherwise)
  }

  /** Moves that open a rollout, keep its books, or close it; the rest moves traffic. */
  predicate Opens(move: Move) {
    move.AwaitRollout? || move.Wake? || move.Settle? || move.Start? || move.Restart?
  }

  predicate Books(move: Move) {
    move.CountFailure? || move.Count? || move.AwaitPromotion?
  }

  predicate Closes(move: Move) {
    move.RollBack? || move.PromoteCanary? || move.Finalise? || move.Complete?
  }

  lemma StrategyMoveIsJustified(cfg: Config, inp: Input, w: World)
    requires Judged(cfg, inp, w) && Passing(cfg, inp, w)
    ensures Justified(cfg, inp, w, StrategyMove(cfg, inp, w))
    ensures !StrategyMove(cfg, inp, w).Skip?
  {
  }

  lemma JudgeMoveIsJustified(cfg: Config, inp: Input, w: World)
    requires Judged(cfg, inp, w)
    ensures Justified(cfg, inp, w, JudgeMove(cfg, inp, w))
    ensures !JudgeMove(cfg, inp, w).Skip?
  {
    if Passing(cfg, inp, w) {
      StrategyMoveIsJustified(cfg, inp, w);
    }
  }

  lemma TickMoveIsJustified(cfg: Config, inp: Input, w: World)
    ensures Justified(cfg, inp, w, TickMove(cfg, inp, w))
  {
    if Judged(cfg, inp, w) {
      JudgeMoveIsJustified(cfg, inp, w);
    }
  }

  lemma CountIsDue(cfg: Config, inp: Input, w: World, move: Move)
    requires Justified(cfg, inp, w, move) && (move.Count? || move.MirrorAndCount?)
    ensures IsBlueGreen(cfg) && move.iterations == w.status.iterations + 1
    ensures w.status.iterations < Iterations(cfg) ||
            (w.status.iterations == Iterations(cfg) && cfg.provider.Kubernetes? && move.Count?)
    ensures move.MirrorAndCount? ==> !cfg.provider.Kubernetes?
  {
  }

  lemma AdvanceIsDue(cfg: Config, inp: Input, w: World, r: Routes, counter: Call)
    requires Justified(cfg, inp, w, AdvanceTo(r, counter)) && Analysing(w.status.phase)
    ensures if IsProgressive(cfg) then
              && w.routes.canary < MaxWeight(cfg)
              && r == Advanced(cfg, w.routes) && counter == SetStatusWeight(r.canary)
            else
              && r == ALL_TO_CANARY && counter == SetStatusIterations(w.status.iterations + 1)
              && !cfg.provider.Kubernetes?
              && (if IsABTest(cfg) then w.status.iterations < Iterations(cfg)
                  else w.status.iterations == Iterations(cfg))
  {
  }

  /** A promotion in which no call fails. */
  lemma PromotionExec(cfg: Config, w: World)
    ensures Exec(cfg, ProgramOf(PromoteCanary), [], w) ==
            Apply(cfg, SetStatusPhase(Promoting), Apply(cfg, Promote, w))
  {
    ExecOne(cfg, ProgramOf(PromoteCanary), [], w);
    ExecTwo(cfg, Promote, SetStatusPhase(Promoting), Apply(cfg, CopyConfigs, w));
  }

  /** A promotion respects what holds before, between and after its calls. */
  lemma PromotionMeets(k: Contract, m: FaultModel, cfg: Config, w: World)
    requires k.calls(CopyConfigs) && k.calls(Promote) && k.calls(SetStatusPhase(Promoting))
    requires Ends(k, w) && Ends(k, Apply(cfg, CopyConfigs, w)) && Ends(k, Apply(cfg, Promote, w))
    requires Ends(k, Apply(cfg, SetStatusPhase(Promoting), Apply(cfg, Promote, w)))
    ensures Meets(k, m, cfg, ProgramOf(PromoteCanary), w)
  {
    var w1 := Apply(cfg, CopyConfigs, w);
    assert Apply(cfg, Promote, w1) == Apply(cfg, Promote, w);
    MeetsTwo(k, m, cfg, Promote, SetStatusPhase(Promoting), w1);
    MeetsThen(k, m, cfg, CopyConfigs, Then(Promote, Then(SetStatusPhase(Promoting), Halt)), w);
  }

  lemma CountingExec(cfg: Config, w: World, move: Move)
    requires move.Count? || move.MirrorAndCount?
    ensures Exec(cfg, ProgramOf(move), [], w) ==
            Apply(cfg, SetStatusIterations(move.iterations),
                  if move.Count? then w else Apply(cfg, SetRoutes(Routes(TOTAL_WEIGHT, 0, true)), w))
  {
    ExecOne(cfg, ProgramOf(move), [], w);
    if move.MirrorAndCount? {
      ExecOne(cfg, ProgramOf(move).ok, [], Apply(cfg, SetRoutes(Routes(TOTAL_WEIGHT, 0, true)), w));
    }
  }

  /** What the calls before the move leave as it was. */
  predicate SameRollout(w: World, v: World) {
    && v.status == w.status && v.target == w.target && v.routes == w.routes
    && (w.primary.Some? ==> v.primary == w.primary)
    && (!IsNew(w.status.phase) ==> v.replicas == w.replicas)
  }

  /** A contract that every justified move meets, from every world that agrees with the start
      of the tick and has a primary, is met by the tick. */
  lemma TickByMoves(k: Contract, m: FaultModel, cfg: Config, inp: Input, w: World)
    requires Ends(k, w)
    requires k.calls(CreatePrimary) && k.calls(ScaleToZero)
    requires w.primary.None? ==> Ends(k, Apply(cfg, CreatePrimary, w))
    requires IsNew(w.status.phase) ==>
               && Ends(k, Apply(cfg, ScaleToZero, w))
               && (w.primary.None? ==> Ends(k, Apply(cfg, ScaleToZero, Apply(cfg, CreatePrimary, w))))
    requires forall v | Ends(k, v) && SameRollout(w, v) && v.primary.Some? ::
               Meets(k, m, cfg, ProgramOf(TickMove(cfg, inp, w)), v)
    ensures Meets(k, m, cfg, TickProgram(cfg, inp, w), w)
  {
    var next := ProgramOf(TickMove(cfg, inp, w));
    var w1 := if w.primary.None? then Apply(cfg, CreatePrimary, w) else w;
    assert Meets(k, m, cfg, next, w1);
    var park :=
      if !IsNew(w.status.phase) then next
      else if !cfg.skipAnalysis && !inp.primaryReadyAtInit then Halt
      else Then(ScaleToZero, next);
    if IsNew(w.status.phase) {
      assert Meets(k, m, cfg, next, Apply(cfg, ScaleToZero, w1));
      assert Meets(k, m, cfg, Then(ScaleToZero, next), w1);
    }
    assert Meets(k, m, cfg, park, w1);
    if w.primary.None? {
      assert InitializeProgram(cfg, inp, w, next) == Then(CreatePrimary, park);
    } else {
      assert InitializeProgram(cfg, inp, w, next) == park;
    }
  }
}
