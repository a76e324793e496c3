// Which progressive rollouts can succeed at all.

module Reach {
  import opened Options
  import opened CanaryStatus
  import opened Analysis
  import opened Cluster
  import opened Tick
  import opened Moves
  import opened RouteSafety
  import opened Ramp
  import opened Termination
  import opened Completion

  // ---------------------------------------------------------------------------
  // What every run keeps when it cannot get through
  // ---------------------------------------------------------------------------

  /** The routes as the router stores them. */
  function Kept(cfg: Config, r: Routes): Routes {
    r.(mirrored := r.mirrored && StoresMirror(cfg))
  }

  /** Routes that no advance leaves, and from which either no promotion is due, or (with
      `promoting`) no promotion gets to its end. */
  ghost predicate Bars(cfg: Config, safe: Routes -> bool, promoting: bool) {
    && IsProgressive(cfg) && !cfg.skipAnalysis
    && safe(ALL_TO_PRIMARY)
    && (forall r | safe(r) && NextStepWeight(cfg, r.canary) > 0 && r.canary < MaxWeight(cfg) ::
          safe(Kept(cfg, Advanced(cfg, r))))
    && if promoting then
         && cfg.stepWeightPromotion != 0
         && forall r | safe(r) && r.canary > 0 ::
              var next := ShiftedBack(r, cfg.stepWeightPromotion); safe(next) && next.primary != TOTAL_WEIGHT
       else
         forall r | safe(r) && NextStepWeight(cfg, r.canary) > 0 :: r.canary < MaxWeight(cfg)
  }

  ghost predicate Barred(safe: Routes -> bool, promoting: bool, w: World) {
    && safe(w.routes)
    && !w.status.phase.Finalising? && !w.status.phase.Succeeded?
    && (!promoting ==> !w.status.phase.Promoting?)
  }

  ghost function BarLaw(safe: Routes -> bool, promoting: bool): Contract {
    Contract((w: World) => Barred(safe, promoting, w), (c: Call) => true, (w: World) => true)
  }

  lemma BarredOpening(cfg: Config, safe: Routes -> bool, promoting: bool, w: World, move: Move)
    requires Bars(cfg, safe, promoting) && Barred(safe, promoting, w) && Opens(move)
    ensures Meets(BarLaw(safe, promoting), AnyFault, cfg, ProgramOf(move), w)
  {
    var k := BarLaw(safe, promoting);
    match move {
      case AwaitRollout => MeetsOne(k, AnyFault, cfg, SetStatusPhase(Waiting), w);
      case Wake => MeetsTwo(k, AnyFault, cfg, SetStatusPhase(Progressing), ScaleFromZero, w);
      case Settle => MeetsOne(k, AnyFault, cfg, SyncStatus(Initialized), w);
      case Start => MeetsTwo(k, AnyFault, cfg, ScaleFromZero, SyncStatus(Progressing), w);
      case Restart => MeetsTwo(k, AnyFault, cfg, SetRoutes(ALL_TO_PRIMARY), SyncStatus(Progressing), w);
    }
  }

  lemma BarredRollBack(cfg: Config, safe: Routes -> bool, promoting: bool, w: World)
    requires Bars(cfg, safe, promoting) && Barred(safe, promoting, w)
    ensures Meets(BarLaw(safe, promoting), AnyFault, cfg, ProgramOf(RollBack), w)
  {
    MeetsTwo(BarLaw(safe, promoting), AnyFault, cfg, ScaleToZero, SyncStatus(Failed),
             Apply(cfg, SetRoutes(ALL_TO_PRIMARY), w));
  }

  /** The routes an advance or a shift stores are again safe, and no shift is the last one. */
  lemma BarredAdvanceIsSafe(
    cfg: Config, safe: Routes -> bool, promoting: bool, inp: Input, w: World, r: Routes, counter: Call)
    requires Bars(cfg, safe, promoting) && Barred(safe, promoting, w)
    requires Justified(cfg, inp, w, AdvanceTo(r, counter))
    ensures safe(Kept(cfg, r)) && counter.SetStatusWeight?
  {
    if w.status.phase != Promoting {
      AdvanceIsDue(cfg, inp, w, r, counter);
    }
  }

  lemma BarredBooking(safe: Routes -> bool, promoting: bool, cfg: Config, w: World, move: Move)
    requires Barred(safe, promoting, w) && (move.CountFailure? || move.AwaitPromotion?)
    ensures Meets(BarLaw(safe, promoting), AnyFault, cfg, ProgramOf(move), w)
  {
    if move.CountFailure? {
      MeetsOne(BarLaw(safe, promoting), AnyFault, cfg, SetStatusFailedChecks(move.checks), w);
    } else {
      MeetsOne(BarLaw(safe, promoting), AnyFault, cfg, SetStatusPhase(WaitingPromotion), w);
    }
  }

  lemma BarredAdvance(safe: Routes -> bool, promoting: bool, cfg: Config, w: World, r: Routes, counter: Call)
    requires Barred(safe, promoting, w) && IsProgressive(cfg) && safe(Kept(cfg, r)) && counter.SetStatusWeight?
    ensures Meets(BarLaw(safe, promoting), AnyFault, cfg, ProgramOf(AdvanceTo(r, counter)), w)
  {
    MeetsTwo(BarLaw(safe, promoting), AnyFault, cfg, SetRoutes(r), counter, w);
  }

  lemma BarredPromotion(safe: Routes -> bool, cfg: Config, w: World)
    requires Barred(safe, true, w)
    ensures Meets(BarLaw(safe, true), AnyFault, cfg, ProgramOf(PromoteCanary), w)
  {
    PromotionMeets(BarLaw(safe, true), AnyFault, cfg, w);
  }

  /** The moves that are left. */
  lemma BarredMoves(cfg: Config, safe: Routes -> bool, promoting: bool, inp: Input, w: World, move: Move)
    requires Bars(cfg, safe, promoting) && Barred(safe, promoting, w) && Justified(cfg, inp, w, move)
    ensures || move.Rest? || Opens(move) || move.RollBack? || move.CountFailure? || move.AwaitPromotion?
            || move.AdvanceTo? || (move.PromoteCanary? && promoting)
  {
  }

  lemma BarredMove(cfg: Config, safe: Routes -> bool, promoting: bool, inp: Input, w0: World, w: World, move: Move)
    requires Bars(cfg, safe, promoting) && Barred(safe, promoting, w0) && Barred(safe, promoting, w)
    requires Justified(cfg, inp, w0, move)
    ensures Meets(BarLaw(safe, promoting), AnyFault, cfg, ProgramOf(move), w)
  {
    BarredMoves(cfg, safe, promoting, inp, w0, move);
    if Opens(move) {
      BarredOpening(cfg, safe, promoting, w, move);
    } else if move.RollBack? {
      BarredRollBack(cfg, safe, promoting, w);
    } else if move.AdvanceTo? {
      BarredAdvanceIsSafe(cfg, safe, promoting, inp, w0, move.routes, move.counter);
      BarredAdvance(safe, promoting, cfg, w, move.routes, move.counter);
    } else if move.PromoteCanary? {
      BarredPromotion(safe, cfg, w);
    } else if !move.Rest? {
      BarredBooking(safe, promoting, cfg, w, move);
    }
  }

  /** Every run, whatever fails and whatever is edited, stays barred. */
  lemma {:induction false} BarredRun(cfg: Config, safe: Routes -> bool, promoting: bool, es: seq<Event>, w: World)
    requires Bars(cfg, safe, promoting) && Barred(safe, promoting, w)
    ensures Barred(safe, promoting, Run(cfg, es, w))
  {
    if es != [] {
      var init, e := es[..|es| - 1], es[|es| - 1];
      BarredRun(cfg, safe, promoting, init, w);
      if e.Advance? {
        var before, k := Run(cfg, init, w), BarLaw(safe, promoting);
        var p := TickProgram(cfg, e.inp, before);
        TickMoveIsJustified(cfg, e.inp, before);
        forall v | Ends(k, v) && SameRollout(before, v)
          ensures Meets(k, AnyFault, cfg, ProgramOf(TickMove(cfg, e.inp, before)), v)
        {
          BarredMove(cfg, safe, promoting, e.inp, before, v, TickMove(cfg, e.inp, before));
        }
        TickByMoves(k, AnyFault, cfg, e.inp, before);
        AnyFaultIsWithin(p, e.faults);
        MeetsIsSound(k, AnyFault, cfg, p, e.faults, before);
        LastIsVisited(cfg, p, e.faults, before);
      }
    }
  }

  // ---------------------------------------------------------------------------
  // The ramp passes, or it does not
  // ---------------------------------------------------------------------------

  /** The weight after `k` advances. */
  function WeightAt(cfg: Config, k: nat): int {
    Climb(cfg, Foot(cfg), k).canary
  }

  predicate MayAdvance(cfg: Config, c: int) {
    c < MaxWeight(cfg) && NextStepWeight(cfg, c) > 0
  }

  /** The guard lets the ramp make `k` advances, all from below the maximum weight. */
  predicate CanClimb(cfg: Config, k: nat) {
    k == 0 || (CanClimb(cfg, k - 1) && MayAdvance(cfg, WeightAt(cfg, k - 1)))
  }

  lemma {:induction false} CanClimbLess(cfg: Config, k: nat, j: nat)
    requires CanClimb(cfg, k) && j <= k
    ensures CanClimb(cfg, j) && (j < k ==> MayAdvance(cfg, WeightAt(cfg, j)))
  {
    if j < k {
      CanClimbLess(cfg, k - 1, j);
    }
  }

  /** After `k` advances the maximum weight is reached, and the guard lets the promotion pass. */
  predicate PassesAt(cfg: Config, k: nat) {
    && CanClimb(cfg, k)
    && WeightAt(cfg, k) >= MaxWeight(cfg) && NextStepWeight(cfg, WeightAt(cfg, k)) > 0
  }

  ghost predicate Passes(cfg: Config) {
    exists k: nat :: PassesAt(cfg, k)
  }

  /** The weights a rollout can be at. */
  ghost predicate OnPath(cfg: Config, c: int) {
    exists k: nat :: CanClimb(cfg, k) && WeightAt(cfg, k) == c
  }

  /** The weight after an advance depends on the weight before it only. */
  lemma AdvanceFromPath(cfg: Config, r: Routes)
    requires OnPath(cfg, r.canary) && NextStepWeight(cfg, r.canary) > 0 && r.canary < MaxWeight(cfg)
    ensures OnPath(cfg, Advanced(cfg, r).canary)
  {
    var k: nat :| CanClimb(cfg, k) && WeightAt(cfg, k) == r.canary;
    if r.canary == 0 {
      assert Climb(cfg, Foot(cfg), 0) == Foot(cfg);
      assert CanClimb(cfg, 0) && CanClimb(cfg, 1);
      assert Climb(cfg, Foot(cfg), 1) == Advanced(cfg, Foot(cfg));
    } else {
      assert CanClimb(cfg, k + 1);
      assert Climb(cfg, Foot(cfg), k + 1) == Advanced(cfg, Climb(cfg, Foot(cfg), k));
    }
  }

  /** Where traffic stays when the ramp does not pass. */
  ghost function Path(cfg: Config): Routes -> bool {
    (r: Routes) => OnPath(cfg, r.canary)
  }

  lemma HeldUpOnPath(cfg: Config)
    requires IsProgressive(cfg) && !cfg.skipAnalysis && !Passes(cfg)
    ensures Bars(cfg, Path(cfg), false)
  {
    assert CanClimb(cfg, 0) && WeightAt(cfg, 0) == 0;
    forall r | Path(cfg)(r) && NextStepWeight(cfg, r.canary) > 0
      ensures r.canary < MaxWeight(cfg) && Path(cfg)(Kept(cfg, Advanced(cfg, r)))
    {
      var k: nat :| CanClimb(cfg, k) && WeightAt(cfg, k) == r.canary;
      assert !PassesAt(cfg, k);
      AdvanceFromPath(cfg, r);
    }
  }

  /** A router that forgets the mirror flag keeps the rollout at its first step. */
  lemma HeldUpAtMirror(cfg: Config)
    requires IsProgressive(cfg) && !cfg.skipAnalysis && MaxWeight(cfg) >= 1 && cfg.mirror && !StoresMirror(cfg)
    ensures Bars(cfg, (r: Routes) => r == ALL_TO_PRIMARY, false)
  {
  }

  /** A negative promotion step never brings the primary back to 100. */
  lemma HeldUpByStep(cfg: Config)
    requires IsProgressive(cfg) && !cfg.skipAnalysis && cfg.stepWeightPromotion < 0
    ensures Bars(cfg, (r: Routes) => r.primary <= TOTAL_WEIGHT, true)
  {
  }

  /** Without a positive maximum weight promotion starts with nothing to shift. */
  lemma HeldUpEmpty(cfg: Config)
    requires IsProgressive(cfg) && !cfg.skipAnalysis && MaxWeight(cfg) < 1 && cfg.stepWeightPromotion != 0
    ensures Bars(cfg, (r: Routes) => r.canary == 0, true)
  {
  }

  // ---------------------------------------------------------------------------
  // Getting through
  // ---------------------------------------------------------------------------

  /** An observation that opens every gate and asks for no rollback. */
  function AllClear(cfg: Config): Input {
    Input(true, true, true, true, true, true, true, true, true, true, Ready,
          set i: nat | i < |cfg.hooks| && cfg.hooks[i] != Hook.Rollback, true)
  }

  lemma AllClearIsHealthy(cfg: Config)
    ensures Healthy(cfg, AllClear(cfg))
  {
    forall hook | hook != Hook.Rollback
      ensures AllApprove(cfg, AllClear(cfg), hook)
    {
    }
  }

  /** `n` ticks in which nothing goes wrong. */
  function Clear(cfg: Config, n: nat): seq<Event> {
    seq(n, _ => Advance(AllClear(cfg), []))
  }

  lemma OneMore(cfg: Config, n: nat, w: World)
    ensures Run(cfg, Clear(cfg, n + 1), w) == Step(cfg, Advance(AllClear(cfg), []), Run(cfg, Clear(cfg, n), w))
  {
    assert Clear(cfg, n + 1)[..n] == Clear(cfg, n);
  }

  lemma {:induction false} RunInTwo(cfg: Config, es: seq<Event>, fs: seq<Event>, w: World)
    ensures Run(cfg, es + fs, w) == Run(cfg, fs, Run(cfg, es, w))
  {
    if fs == [] {
      assert es + fs == es;
    } else {
      var init := fs[..|fs| - 1];
      assert (es + fs)[..|es + fs| - 1] == es + init;
      RunInTwo(cfg, es, init, w);
    }
  }

  /** A progressive rollout at its start, apart from where its traffic is. */
  predicate Ramping(cfg: Config, w: World) {
    && IsProgressive(cfg) && !cfg.skipAnalysis
    && w.status.phase == Progressing && w.status.failedChecks == w.status.iterations == 0
    && w.primary.Some? && Recorded(w)
  }

  /** One tick in which nothing goes wrong, below the maximum weight. */
  lemma RampingTick(cfg: Config, w: World)
    requires Ramping(cfg, w)
    requires w.routes.canary < MaxWeight(cfg) && NextStepWeight(cfg, w.routes.canary) > 0
    ensures var v := Step(cfg, Advance(AllClear(cfg), []), w);
            Ramping(cfg, v) && v.routes == Kept(cfg, Advanced(cfg, w.routes))
  {
    var inp, r := AllClear(cfg), Advanced(cfg, w.routes);
    AllClearIsHealthy(cfg);
    assert TickMove(cfg, inp, w) == AdvanceTo(r, SetStatusWeight(r.canary));
    ExecTwo(cfg, SetRoutes(r), SetStatusWeight(r.canary), w);
  }

  /** The ticks before the first step with weight. */
  function FootTicks(cfg: Config): nat {
    if cfg.mirror then 1 else 0
  }

  /** One more clear tick in a run of them. */
  lemma OneMoreAdvance(cfg: Config, n: nat, w: World)
    requires var v := Run(cfg, Clear(cfg, n), w);
             Ramping(cfg, v) && MayAdvance(cfg, v.routes.canary)
    ensures var v, u := Run(cfg, Clear(cfg, n), w), Run(cfg, Clear(cfg, n + 1), w);
            Ramping(cfg, u) && u.routes == Kept(cfg, Advanced(cfg, v.routes))
  {
    OneMore(cfg, n, w);
    RampingTick(cfg, Run(cfg, Clear(cfg, n), w));
  }

  lemma ClimbNext(cfg: Config, k: nat)
    requires (cfg.mirror ==> StoresMirror(cfg)) && CanClimb(cfg, k + 1)
    ensures CanClimb(cfg, k) && MayAdvance(cfg, Climb(cfg, Foot(cfg), k).canary)
    ensures Kept(cfg, Advanced(cfg, Climb(cfg, Foot(cfg), k))) == Climb(cfg, Foot(cfg), k + 1)
  {
    ClimbIsKept(cfg, k + 1);
  }

  /** From one world of a sequence to the next, one advance is made if one may be made. */
  ghost predicate Advances(cfg: Config, at: nat -> World) {
    forall n: nat | Ramping(cfg, at(n)) && MayAdvance(cfg, at(n).routes.canary) ::
      Ramping(cfg, at(n + 1)) && at(n + 1).routes == Kept(cfg, Advanced(cfg, at(n).routes))
  }

  lemma {:induction false} AdvancesAddUp(cfg: Config, at: nat -> World, m: nat, k: nat)
    requires Advances(cfg, at) && (cfg.mirror ==> StoresMirror(cfg)) && CanClimb(cfg, k)
    requires Ramping(cfg, at(m)) && at(m).routes == Foot(cfg)
    ensures Ramping(cfg, at(m + k)) && at(m + k).routes == Climb(cfg, Foot(cfg), k)
  {
    if k > 0 {
      ClimbNext(cfg, k - 1);
      AdvancesAddUp(cfg, at, m, k - 1);
      assert at(m + (k - 1) + 1) == at(m + k);
    }
  }

  /** The worlds after so many clear ticks. */
  function AfterClear(cfg: Config, w: World): nat -> World {
    (n: nat) => Run(cfg, Clear(cfg, n), w)
  }

  lemma ClearTicksAdvance(cfg: Config, w: World)
    ensures Advances(cfg, AfterClear(cfg, w))
  {
    forall n: nat | Ramping(cfg, AfterClear(cfg, w)(n)) && MayAdvance(cfg, AfterClear(cfg, w)(n).routes.canary)
      ensures var v, u := AfterClear(cfg, w)(n), AfterClear(cfg, w)(n + 1);
              Ramping(cfg, u) && u.routes == Kept(cfg, Advanced(cfg, v.routes))
    {
      OneMoreAdvance(cfg, n, w);
    }
  }

  /** The mirror step, if there is one, leads to the foot of the ramp, and the ramp to its top. */
  lemma RampReaches(cfg: Config, at: nat -> World, k: nat)
    requires Advances(cfg, at) && Ramping(cfg, at(0)) && at(0).routes == ALL_TO_PRIMARY
    requires cfg.mirror ==> StoresMirror(cfg)
    requires MaxWeight(cfg) >= 1 && NextStepWeight(cfg, 0) > 0 && CanClimb(cfg, k)
    ensures Ramping(cfg, at(FootTicks(cfg) + k)) && at(FootTicks(cfg) + k).routes == Climb(cfg, Foot(cfg), k)
  {
    if cfg.mirror {
      assert MayAdvance(cfg, at(0).routes.canary);
      assert at(0 + 1).routes == Foot(cfg);
    }
    AdvancesAddUp(cfg, at, FootTicks(cfg), k);
  }

  /** With weight, no mirror flag is left. */
  lemma ClimbIsKept(cfg: Config, k: nat)
    requires k >= 1 && (cfg.mirror ==> StoresMirror(cfg))
    ensures Kept(cfg, Climb(cfg, Foot(cfg), k)) == Climb(cfg, Foot(cfg), k)
  {
    ClimbMirrors(cfg, k);
  }

  lemma {:induction false} ClimbMirrors(cfg: Config, k: nat)
    ensures Climb(cfg, Foot(cfg), k).mirrored ==> cfg.mirror
  {
    if k > 0 {
      ClimbMirrors(cfg, k - 1);
    }
  }

  /** The promotion that follows when the ramp has passed. */
  lemma RampPromotes(cfg: Config, w: World)
    requires Ramping(cfg, w)
    requires w.routes.canary >= MaxWeight(cfg) && NextStepWeight(cfg, w.routes.canary) > 0
    ensures var v := Step(cfg, Advance(AllClear(cfg), []), w);
            && v.status.phase == Promoting && v.routes == w.routes && v.target == w.target
            && v.primary == Some(w.target) && v.status.iterations == 0 && Recorded(v)
  {
    AllClearIsHealthy(cfg);
    assert TickMove(cfg, AllClear(cfg), w) == PromoteCanary;
    PromotionExec(cfg, w);
  }

  /** A configuration with the same promotion and the simplest of ramps. */
  function Plain(cfg: Config): Config {
    cfg.(mirror := false, stepWeight := 1, stepWeights := [], maxWeight := TOTAL_WEIGHT)
  }

  lemma {:induction false} ExecByProvider(cfg: Config, cfg': Config, p: Program, faults: seq<Outcome>, w: World)
    requires cfg'.provider == cfg.provider
    ensures Exec(cfg', p, faults, w) == Exec(cfg, p, faults, w)
  {
    if p.Do? {
      ExecByProvider(cfg, cfg', Branch(p, Head(faults)), Tail(faults), Effect(cfg, p.call, Head(faults), w));
    }
  }

  predicate IsPromoting(phase: Phase) {
    phase.Promoting? || phase.Finalising?
  }

  /** After the ramp its shape plays no part any more. */
  lemma SameFromHere(cfg: Config, e: Event, w: World)
    requires IsPromoting(w.status.phase) && w.primary.Some? && e.Advance? && !cfg.skipAnalysis
    ensures Step(Plain(cfg), e, w) == Step(cfg, e, w)
  {
    SameMove(cfg, e.inp, w);
    ExecByProvider(cfg, Plain(cfg), TickProgram(cfg, e.inp, w), e.faults, w);
  }

  lemma SameMove(cfg: Config, inp: Input, w: World)
    requires IsPromoting(w.status.phase) && w.primary.Some? && !cfg.skipAnalysis
    ensures TickProgram(Plain(cfg), inp, w) == TickProgram(cfg, inp, w)
  {
    assert forall hook :: AllApprove(Plain(cfg), inp, hook) == AllApprove(cfg, inp, hook);
    assert GetRoutes(Plain(cfg), w) == GetRoutes(cfg, w);
    assert PromotionShift(Plain(cfg), GetRoutes(cfg, w)) == PromotionShift(cfg, GetRoutes(cfg, w));
    assert JudgeMove(Plain(cfg), inp, w) == JudgeMove(cfg, inp, w);
  }

  /** A healthy promotion stays in its two phases until the end. */
  lemma PromotionGoesOn(cfg: Config, inp: Input, w: World)
    requires Completable(cfg) && Rolling(cfg, w) && Healthy(cfg, inp) && w.status.phase == Promoting
    ensures IsPromoting(Exec(cfg, TickProgram(cfg, inp, w), [], w).status.phase)
  {
    HealthyMoves(cfg, inp, w);
    var move := PromotionShift(cfg, GetRoutes(cfg, w));
    if move.AdvanceTo? {
      ExecTwo(cfg, SetRoutes(move.routes), move.counter, w);
    } else if move.routed {
      ExecTwo(cfg, SetRoutes(ALL_TO_PRIMARY), SetStatusPhase(Finalising), w);
    } else {
      ExecOne(cfg, ProgramOf(move), [], w);
    }
  }

  lemma {:induction false} PlainPromotion(cfg: Config, w: World, n: nat)
    requires Completable(Plain(cfg)) && Rolling(Plain(cfg), w) && IsPromoting(w.status.phase)
    requires n < Distance(Plain(cfg), w)
    ensures var v := Run(Plain(cfg), Clear(cfg, n), w);
            && Run(cfg, Clear(cfg, n), w) == v && Rolling(Plain(cfg), v) && IsPromoting(v.status.phase)
            && Distance(Plain(cfg), v) == Distance(Plain(cfg), w) - n
  {
    var plain := Plain(cfg);
    AllClearIsHealthy(plain);
    assert AllClear(plain) == AllClear(cfg);
    if n > 0 {
      PlainPromotion(cfg, w, n - 1);
      var before := Run(cfg, Clear(cfg, n - 1), w);
      OneMore(cfg, n - 1, w);
      assert Clear(plain, n) == Clear(cfg, n) && Clear(plain, n - 1) == Clear(cfg, n - 1);
      OneMore(plain, n - 1, w);
      SameFromHere(cfg, Advance(AllClear(cfg), []), before);
      HealthyTick(plain, AllClear(cfg), before);
      OneTickLeft(plain, before);
      PromotionGoesOn(plain, AllClear(cfg), before);
    }
  }

  lemma PromotionGetsThrough(cfg: Config, w: World)
    requires Completable(Plain(cfg)) && Rolling(Plain(cfg), w) && IsPromoting(w.status.phase)
    ensures Run(cfg, Clear(cfg, Distance(Plain(cfg), w)), w).status.phase == Succeeded
  {
    var plain := Plain(cfg);
    var n: nat := Distance(plain, w) - 1;
    AllClearIsHealthy(plain);
    PlainPromotion(cfg, w, n);
    OneMore(cfg, n, w);
    var before := Run(cfg, Clear(cfg, n), w);
    SameFromHere(cfg, Advance(AllClear(cfg), []), before);
    LastTick(plain, Advance(AllClear(cfg), []), before);
  }

  // ---------------------------------------------------------------------------
  // Exactly the rollouts that can succeed
  // ---------------------------------------------------------------------------

  ghost predicate Succeeds(cfg: Config, es: seq<Event>, w: World) {
    Run(cfg, es, w).status.phase == Succeeded
  }

  /** The promotion can be finished: with a maximum weight there has to be a router for the
      mirror step and a step that goes back, without one there has to be nothing to shift. */
  predicate CanFinish(cfg: Config) {
    if MaxWeight(cfg) >= 1 then cfg.stepWeightPromotion >= 0 && (cfg.mirror ==> StoresMirror(cfg))
    else cfg.stepWeightPromotion == 0
  }

  /** The ramp has passed, and the promotion can be finished. */
  predicate AtTop(cfg: Config, w: World) {
    && Ramping(cfg, w) && cfg.stepWeightPromotion >= 0
    && w.routes.canary >= 0 && w.routes.primary + w.routes.canary == TOTAL_WEIGHT
    && (w.routes.mirrored ==> StoresMirror(cfg))
    && (cfg.stepWeightPromotion > 0 ==> w.routes.canary > 0)
    && w.routes.canary >= MaxWeight(cfg) && NextStepWeight(cfg, w.routes.canary) > 0
  }

  /** The world from which the promotion goes on. */
  lemma PromotionBegins(cfg: Config, w: World)
    requires AtTop(cfg, w)
    ensures var v := Step(cfg, Advance(AllClear(cfg), []), w);
            Completable(Plain(cfg)) && Rolling(Plain(cfg), v) && IsPromoting(v.status.phase)
  {
    RampPromotes(cfg, w);
  }

  lemma RampPassed(cfg: Config, w: World, n: nat)
    requires AtTop(cfg, Run(cfg, Clear(cfg, n), w))
    ensures exists es :: Succeeds(cfg, es, w)
  {
    PromotionBegins(cfg, Run(cfg, Clear(cfg, n), w));
    OneMore(cfg, n, w);
    var v := Run(cfg, Clear(cfg, n + 1), w);
    var d := Distance(Plain(cfg), v);
    PromotionGetsThrough(cfg, v);
    RunInTwo(cfg, Clear(cfg, n + 1), Clear(cfg, d), w);
    assert Succeeds(cfg, Clear(cfg, n + 1) + Clear(cfg, d), w);
  }

  lemma {:induction false} ClimbIsBalanced(cfg: Config, k: nat)
    requires CanClimb(cfg, k) && MaxWeight(cfg) >= 1
    ensures var r := Climb(cfg, Foot(cfg), k); r.canary >= 0 && r.primary + r.canary == TOTAL_WEIGHT
  {
    if k > 0 {
      ClimbIsBalanced(cfg, k - 1);
    }
  }

  lemma TopIsReady(cfg: Config, v: World, k: nat)
    requires Ramping(cfg, v) && v.routes == Climb(cfg, Foot(cfg), k)
    requires CanFinish(cfg) && PassesAt(cfg, k) && MaxWeight(cfg) >= 1
    ensures AtTop(cfg, v)
  {
    ClimbIsBalanced(cfg, k);
    ClimbMirrors(cfg, k);
  }

  /** A ramp with a positive maximum weight is climbed to where it passes. */
  lemma TopIsReached(cfg: Config, at: nat -> World, k: nat)
    requires Advances(cfg, at) && Ramping(cfg, at(0)) && at(0).routes == ALL_TO_PRIMARY
    requires CanFinish(cfg) && PassesAt(cfg, k) && MaxWeight(cfg) >= 1
    ensures AtTop(cfg, at(FootTicks(cfg) + k))
  {
    assert WeightAt(cfg, 0) == 0;
    CanClimbLess(cfg, k, 0);
    RampReaches(cfg, at, k);
    TopIsReady(cfg, at(FootTicks(cfg) + k), k);
  }

  lemma GetsThrough(cfg: Config, w: World, k: nat)
    requires Ramping(cfg, w) && w.routes == ALL_TO_PRIMARY && CanFinish(cfg) && PassesAt(cfg, k)
    requires MaxWeight(cfg) >= 1
    ensures exists es :: Succeeds(cfg, es, w)
  {
    ClearTicksAdvance(cfg, w);
    assert AfterClear(cfg, w)(0) == w;
    TopIsReached(cfg, AfterClear(cfg, w), k);
    RampPassed(cfg, w, FootTicks(cfg) + k);
  }

  lemma GetsThroughEmpty(cfg: Config, w: World, k: nat)
    requires Ramping(cfg, w) && w.routes == ALL_TO_PRIMARY && CanFinish(cfg) && PassesAt(cfg, k)
    requires MaxWeight(cfg) < 1
    ensures exists es :: Succeeds(cfg, es, w)
  {
    assert WeightAt(cfg, 0) == 0;
    CanClimbLess(cfg, k, 0);
    assert Run(cfg, Clear(cfg, 0), w) == w;
    RampPassed(cfg, w, 0);
  }

  lemma NeverGetsThrough(cfg: Config, es: seq<Event>, w: World)
    requires Ramping(cfg, w) && w.routes == ALL_TO_PRIMARY && !(Passes(cfg) && CanFinish(cfg))
    ensures !Succeeds(cfg, es, w)
  {
    if !Passes(cfg) {
      HeldUpOnPath(cfg);
      BarredRun(cfg, Path(cfg), false, es, w);
    } else if MaxWeight(cfg) < 1 {
      HeldUpEmpty(cfg);
      BarredRun(cfg, (r: Routes) => r.canary == 0, true, es, w);
    } else if cfg.stepWeightPromotion < 0 {
      HeldUpByStep(cfg);
      BarredRun(cfg, (r: Routes) => r.primary <= TOTAL_WEIGHT, true, es, w);
    } else {
      HeldUpAtMirror(cfg);
      BarredRun(cfg, (r: Routes) => r == ALL_TO_PRIMARY, false, es, w);
    }
  }

  /** Main result: some run of a progressive rollout succeeds, with whatever observations,
      failures and edits, exactly if its ramp passes and its promotion can finish. */
  lemma SucceedsExactly(cfg: Config, w: World)
    requires Ramping(cfg, w) && w.routes == ALL_TO_PRIMARY
    ensures (exists es :: Succeeds(cfg, es, w)) <==> Passes(cfg) && CanFinish(cfg)
  {
    if Passes(cfg) && CanFinish(cfg) {
      var k: nat :| PassesAt(cfg, k);
      if MaxWeight(cfg) >= 1 {
        GetsThrough(cfg, w, k);
      } else {
        GetsThroughEmpty(cfg, w, k);
      }
    } else {
      forall es ensures !Succeeds(cfg, es, w) {
        NeverGetsThrough(cfg, es, w);
      }
    }
  }

  // ---------------------------------------------------------------------------
  // Ramps that pass, told from the configuration
  // ---------------------------------------------------------------------------

  /** A ramp whose steps climb comes to its end. */
  lemma {:induction false} ClimbEnds(cfg: Config, k: nat) returns (n: nat)
    requires Climbs(cfg) && CanClimb(cfg, k) && Balanced(cfg, Climb(cfg, Foot(cfg), k))
    ensures CanClimb(cfg, n) && WeightAt(cfg, n) >= MaxWeight(cfg) && Balanced(cfg, Climb(cfg, Foot(cfg), n))
    decreases TOTAL_WEIGHT - WeightAt(cfg, k), if Climb(cfg, Foot(cfg), k).mirrored then 0 else 1
  {
    var r := Climb(cfg, Foot(cfg), k);
    n := k;
    if r.canary < MaxWeight(cfg) {
      StepIsPositive(cfg, r.canary);
      AdvanceBalances(cfg, r);
      n := ClimbEnds(cfg, k + 1);
    }
  }

  lemma ClimbingPasses(cfg: Config)
    requires Climbs(cfg)
    ensures Passes(cfg)
  {
    assert Climb(cfg, Foot(cfg), 0) == Foot(cfg);
    var k := ClimbEnds(cfg, 0);
    StepIsPositive(cfg, WeightAt(cfg, k));
    assert PassesAt(cfg, k);
  }

  /** A fixed step never takes the canary above this. */
  lemma {:induction false} ClimbIsBounded(cfg: Config, k: nat)
    requires cfg.stepWeight > 0
    ensures 0 <= Climb(cfg, Foot(cfg), k).canary <= (if cfg.mirror then Max(cfg.stepWeight, TOTAL_WEIGHT) else TOTAL_WEIGHT)
    requires cfg.stepWeights == []
  {
    if k > 0 {
      ClimbIsBounded(cfg, k - 1);
    }
  }

  /** Without a list the ramp passes exactly if the step is positive and the maximum weight is
      within reach: at most 100, or at most the step that follows a mirror step. */
  lemma PassesByStep(cfg: Config)
    requires cfg.stepWeights == []
    ensures Passes(cfg) <==>
            cfg.stepWeight > 0 && (MaxWeight(cfg) <= TOTAL_WEIGHT || (cfg.mirror && MaxWeight(cfg) <= cfg.stepWeight))
  {
    assert Climb(cfg, Foot(cfg), 0) == Foot(cfg);
    if cfg.stepWeight > 0 && MaxWeight(cfg) <= TOTAL_WEIGHT {
      ClimbingPasses(cfg);
    } else if cfg.stepWeight > 0 && cfg.mirror && MaxWeight(cfg) <= cfg.stepWeight {
      assert WeightAt(cfg, 0) == 0 && CanClimb(cfg, 0);
      assert CanClimb(cfg, 1);
      assert Climb(cfg, Foot(cfg), 1) == Advanced(cfg, Foot(cfg));
      assert PassesAt(cfg, 1);
    } else if cfg.stepWeight > 0 {
      forall k: nat ensures !PassesAt(cfg, k) {
        ClimbIsBounded(cfg, k);
      }
    }
  }

  /** The maximum weight of a list. */
  function TopOf(steps: seq<int>): int
    requires |steps| > 0
  {
    Min(TOTAL_WEIGHT, steps[|steps| - 1])
  }

  /** A list by which weight can be given at all. */
  predicate Starts(steps: seq<int>) {
    |steps| > 0 && steps[0] >= 1 && TopOf(steps) >= 1
  }

  /** Entry `i` is the first that reaches the maximum weight. */
  predicate FirstAtTop(steps: seq<int>, i: nat)
    requires |steps| > 0
  {
    i < |steps| && steps[i] >= TopOf(steps) && forall j :: 0 <= j < i ==> steps[j] < TopOf(steps)
  }

  /** The first entry is positive, and the list increases up to its first entry that reaches the
      maximum and does not fall right after it; what comes later is never looked at. A list
      that ends at or below zero is over at once. */
  predicate ListPasses(steps: seq<int>)
    requires |steps| > 0
  {
    && steps[0] >= 1
    && (TopOf(steps) >= 1 ==>
          exists i: nat | i < |steps| && FirstAtTop(steps, i) :: Rises(steps, i + 1) && GoesOnAfter(steps, i))
  }

  /** Entry `i` is the last one, or cannot be exceeded, or is followed by a larger one. */
  predicate GoesOnAfter(steps: seq<int>, i: nat)
    requires i < |steps|
  {
    i == |steps| - 1 || steps[i] >= TOTAL_WEIGHT || steps[i + 1] > steps[i]
  }

  /** The guard at the k-th entry of a list that has increased so far. */
  lemma GuardAtEntry(cfg: Config, k: nat)
    requires cfg.stepWeight <= 0 && Starts(cfg.stepWeights)
    requires 1 <= k <= |cfg.stepWeights| && Rises(cfg.stepWeights, k)
    ensures NextStepWeight(cfg, Min(TOTAL_WEIGHT, cfg.stepWeights[k - 1])) > 0 <==> GoesOnAfter(cfg.stepWeights, k - 1)
  {
    var steps := cfg.stepWeights;
    if k < |steps| {
      FoundWhereItStands(steps, k - 1, 0);
    } else {
      StepIndexMeans(steps, steps[k - 1], 0);
      assert StepIndex(steps, steps[k - 1], 0) == -1;
    }
  }

  /** Below the top, the guard passes exactly if the next entry is larger. */
  lemma MayAdvanceAtEntry(cfg: Config, i: nat, k: nat)
    requires cfg.stepWeight <= 0 && Starts(cfg.stepWeights) && FirstAtTop(cfg.stepWeights, i)
    requires 1 <= k <= i && Rises(cfg.stepWeights, k)
    ensures MayAdvance(cfg, cfg.stepWeights[k - 1]) <==> Rises(cfg.stepWeights, k + 1)
    ensures cfg.stepWeights[k - 1] < MaxWeight(cfg)
  {
    GuardAtEntry(cfg, k);
    RisesByOne(cfg.stepWeights, k + 1);
  }

  lemma WeightAtEntry(cfg: Config, i: nat, k: nat)
    requires cfg.stepWeight <= 0 && Starts(cfg.stepWeights) && FirstAtTop(cfg.stepWeights, i)
    requires 1 <= k <= i + 1 && Rises(cfg.stepWeights, k)
    ensures WeightAt(cfg, k) == Min(TOTAL_WEIGHT, cfg.stepWeights[k - 1])
  {
    ClimbFollowsTheList(cfg, k);
  }

  lemma ListStarts(cfg: Config)
    requires cfg.stepWeight <= 0 && Starts(cfg.stepWeights)
    ensures CanClimb(cfg, 0) && CanClimb(cfg, 1)
  {
    assert NextStepWeight(cfg, 0) == Min(TOTAL_WEIGHT, cfg.stepWeights[0]);
    assert WeightAt(cfg, 0) == 0;
    assert MayAdvance(cfg, WeightAt(cfg, 0));
    assert CanClimb(cfg, 0);
  }

  lemma {:induction false} ListClimbs(cfg: Config, i: nat, k: nat)
    requires cfg.stepWeight <= 0 && Starts(cfg.stepWeights) && FirstAtTop(cfg.stepWeights, i) && k <= i + 1
    ensures CanClimb(cfg, k) <==> Rises(cfg.stepWeights, k)
  {
    if k <= 1 {
      ListStarts(cfg);
    } else {
      ListClimbs(cfg, i, k - 1);
      if Rises(cfg.stepWeights, k - 1) {
        WeightAtEntry(cfg, i, k - 1);
        MayAdvanceAtEntry(cfg, i, k - 1);
      }
    }
  }

  lemma RisesByOne(steps: seq<int>, k: nat)
    requires 2 <= k <= |steps|
    ensures Rises(steps, k) <==> Rises(steps, k - 1) && steps[k - 2] < steps[k - 1]
  {
  }

  /** Without a fixed step a list passes exactly as told above. */
  lemma PassesByList(cfg: Config)
    requires cfg.stepWeight <= 0 && |cfg.stepWeights| > 0
    ensures Passes(cfg) <==> ListPasses(cfg.stepWeights)
  {
    if Starts(cfg.stepWeights) {
      PassesByStartedList(cfg);
    } else {
      NotStarted(cfg);
    }
  }

  lemma PassesByStartedList(cfg: Config)
    requires cfg.stepWeight <= 0 && Starts(cfg.stepWeights)
    ensures Passes(cfg) <==> ListPasses(cfg.stepWeights)
  {
    if Passes(cfg) {
      var k: nat :| PassesAt(cfg, k);
      var i := FirstTop(cfg.stepWeights, 0);
      PassesAtTop(cfg, i, k);
      TopPasses(cfg, i);
    }
    if ListPasses(cfg.stepWeights) {
      var i: nat :| i < |cfg.stepWeights| && FirstAtTop(cfg.stepWeights, i)
        && Rises(cfg.stepWeights, i + 1) && GoesOnAfter(cfg.stepWeights, i);
      TopPasses(cfg, i);
    }
  }

  /** Without weight to give, the ramp is over at once or the guard never passes. */
  lemma NotStarted(cfg: Config)
    requires cfg.stepWeight <= 0 && |cfg.stepWeights| > 0 && !Starts(cfg.stepWeights)
    ensures Passes(cfg) <==> cfg.stepWeights[0] >= 1
  {
    assert NextStepWeight(cfg, 0) == Min(TOTAL_WEIGHT, cfg.stepWeights[0]);
    assert WeightAt(cfg, 0) == 0;
    assert PassesAt(cfg, 0) <==> cfg.stepWeights[0] >= 1;
    forall k: nat | PassesAt(cfg, k) ensures k == 0 {
      if k > 0 {
        CanClimbLess(cfg, k, 0);
      }
    }
  }

  lemma PassesFrom(cfg: Config, k: nat, c: int)
    requires CanClimb(cfg, k) && WeightAt(cfg, k) == c
    ensures PassesAt(cfg, k) <==> c >= MaxWeight(cfg) && NextStepWeight(cfg, c) > 0
  {
  }

  lemma TopPasses(cfg: Config, i: nat)
    requires cfg.stepWeight <= 0 && Starts(cfg.stepWeights) && FirstAtTop(cfg.stepWeights, i)
    requires Rises(cfg.stepWeights, i + 1)
    ensures PassesAt(cfg, i + 1) <==> GoesOnAfter(cfg.stepWeights, i)
  {
    ListClimbs(cfg, i, i + 1);
    WeightAtEntry(cfg, i, i + 1);
    GuardAtEntry(cfg, i + 1);
    PassesFrom(cfg, i + 1, Min(TOTAL_WEIGHT, cfg.stepWeights[i]));
  }

  lemma {:induction false} FirstTop(steps: seq<int>, from: nat) returns (i: nat)
    requires |steps| > 0 && from < |steps| && forall j :: 0 <= j < from ==> steps[j] < TopOf(steps)
    ensures FirstAtTop(steps, i)
    decreases |steps| - from
  {
    if steps[from] >= TopOf(steps) {
      i := from;
    } else {
      i := FirstTop(steps, from + 1);
    }
  }

  /** The weights before the first entry at the top are below the maximum. */
  lemma NotBeforeTop(cfg: Config, i: nat, k: nat)
    requires cfg.stepWeight <= 0 && Starts(cfg.stepWeights) && FirstAtTop(cfg.stepWeights, i)
    requires CanClimb(cfg, k) && k <= i
    ensures WeightAt(cfg, k) < MaxWeight(cfg)
  {
    if k == 0 {
      assert WeightAt(cfg, 0) == 0;
    } else {
      ListClimbs(cfg, i, k);
      WeightAtEntry(cfg, i, k);
      MayAdvanceAtEntry(cfg, i, k);
    }
  }

  lemma TopWeight(cfg: Config, i: nat)
    requires cfg.stepWeight <= 0 && Starts(cfg.stepWeights) && FirstAtTop(cfg.stepWeights, i)
    requires CanClimb(cfg, i + 1)
    ensures WeightAt(cfg, i + 1) >= MaxWeight(cfg)
  {
    ListClimbs(cfg, i, i + 1);
    WeightAtEntry(cfg, i, i + 1);
  }

  lemma NotAfterTop(cfg: Config, i: nat, k: nat)
    requires cfg.stepWeight <= 0 && Starts(cfg.stepWeights) && FirstAtTop(cfg.stepWeights, i)
    requires CanClimb(cfg, k)
    ensures k <= i + 1
  {
    if k > i + 1 {
      CanClimbLess(cfg, k, i + 1);
      TopWeight(cfg, i);
    }
  }

  /** The ramp can only pass at the first entry at the top. */
  lemma PassesAtTop(cfg: Config, i: nat, k: nat)
    requires cfg.stepWeight <= 0 && Starts(cfg.stepWeights) && FirstAtTop(cfg.stepWeights, i)
    requires PassesAt(cfg, k)
    ensures k == i + 1 && Rises(cfg.stepWeights, i + 1)
  {
    if k <= i {
      NotBeforeTop(cfg, i, k);
    }
    NotAfterTop(cfg, i, k);
    ListClimbs(cfg, i, k);
  }

  /** With a fixed step the list only says where the ramp ends. */
  lemma PassesByStepTowardsList(cfg: Config)
    requires cfg.stepWeight > 0 && |cfg.stepWeights| > 0
    ensures Passes(cfg)
  {
    if TopOf(cfg.stepWeights) >= 1 {
      ClimbingPasses(cfg);
    } else {
      assert WeightAt(cfg, 0) == 0;
      assert PassesAt(cfg, 0);
    }
  }

  /** The result for a configuration without a list, in terms of the configuration alone. */
  lemma SucceedsByStep(cfg: Config, w: World)
    requires Ramping(cfg, w) && w.routes == ALL_TO_PRIMARY && cfg.stepWeights == []
    ensures (exists es :: Succeeds(cfg, es, w)) <==>
              && cfg.stepWeight > 0 && cfg.stepWeightPromotion >= 0 && (cfg.mirror ==> StoresMirror(cfg))
              && (cfg.maxWeight <= TOTAL_WEIGHT || (cfg.mirror && cfg.maxWeight <= cfg.stepWeight))
  {
    SucceedsExactly(cfg, w);
    PassesByStep(cfg);
  }

  /** The result for any list, in terms of the configuration alone. */
  lemma SucceedsByList(cfg: Config, w: World)
    requires Ramping(cfg, w) && w.routes == ALL_TO_PRIMARY && |cfg.stepWeights| > 0
    ensures (exists es :: Succeeds(cfg, es, w)) <==>
              && (cfg.stepWeight > 0 || ListPasses(cfg.stepWeights))
              && if TopOf(cfg.stepWeights) >= 1
                 then cfg.stepWeightPromotion >= 0 && (cfg.mirror ==> StoresMirror(cfg))
                 else cfg.stepWeightPromotion == 0
  {
    SucceedsExactly(cfg, w);
    if cfg.stepWeight > 0 {
      PassesByStepTowardsList(cfg);
    } else {
      PassesByList(cfg);
    }
  }

  /** A list that falls can pass: 10, 30, 5 is over at 10, the first entry not below 5. */
  lemma FallingListPasses()
    ensures ListPasses([10, 30, 5]) && !StrictlyIncreasing([10, 30, 5])
    ensures !ListPasses([10, 30, 20, 40])
  {
    var falling, held := [10, 30, 5], [10, 30, 20, 40];
    assert falling[1] > falling[2] && FirstAtTop(falling, 0) && GoesOnAfter(falling, 0);
    assert held[1] > held[2] && FirstAtTop(held, 3) && !Rises(held, 4);
  }
}
