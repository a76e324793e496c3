// Where traffic may be. In every run, whatever calls fail, every weight pair sent to the
// router is a split of 100, and in every phase outside a rollout all traffic is on the
// primary.

module RouteSafety {
  import opened Options
  import opened CanaryStatus
  import opened Analysis
  import opened Cluster
  import opened Tick
  import opened Moves
  import opened Scenarios

  predicate SplitsTraffic(r: Routes) {
    0 <= r.primary && 0 <= r.canary && r.primary + r.canary == TOTAL_WEIGHT
  }

  /** Phases in which no canary may receive traffic. */
  predicate AtRest(phase: Phase) {
    || phase.Unset? || phase.Initializing? || phase.Initialized?
    || phase.Finalising? || phase.Succeeded? || phase.Failed?
  }

  ghost predicate RoutesSafe(w: World) {
    && SplitsTraffic(w.routes)
    && (AtRest(w.status.phase) ==> w.routes == ALL_TO_PRIMARY)
  }

  /** The routes of the kubernetes provider are never stored, so they never change. */
  ghost predicate Inv(cfg: Config, w: World) {
    RoutesSafe(w) && (cfg.provider.Kubernetes? ==> w.routes == ALL_TO_PRIMARY)
  }

  ghost function Law(cfg: Config): Contract {
    Contract((w: World) => Inv(cfg, w),
             (c: Call) => c.SetRoutes? ==> SplitsTraffic(c.routes),
             (w: World) => Inv(cfg, w))
  }

  /** The step sizes the weight arithmetic can cope with. */
  predicate SoundSteps(cfg: Config) {
    cfg.stepWeightPromotion >= 0 && (cfg.mirror ==> cfg.stepWeight <= TOTAL_WEIGHT)
  }

  // ---------------------------------------------------------------------------
  // The arithmetic of one step
  // ---------------------------------------------------------------------------

  /** Moving traffic back is sound exactly when the step does not take the primary below zero. */
  lemma ShiftBackSplits(r: Routes, step: int)
    requires SplitsTraffic(r)
    ensures SplitsTraffic(ShiftedBack(r, step)) <==> step >= -r.primary
    ensures ShiftedBack(r, step).primary == TOTAL_WEIGHT ==> ShiftedBack(r, step) == ALL_TO_PRIMARY
  {
  }

  /** Moving traffic forward is sound exactly when leaving the mirror step does not overshoot. */
  lemma AdvanceSplits(cfg: Config, r: Routes)
    requires SplitsTraffic(r) && NextStepWeight(cfg, r.canary) > 0
    ensures SplitsTraffic(Advanced(cfg, r)) <==>
            !(cfg.mirror && r.canary == 0 && r.mirrored && NextStepWeight(cfg, 0) > TOTAL_WEIGHT)
    ensures SoundSteps(cfg) ==> SplitsTraffic(Advanced(cfg, r))
  {
  }

  // ---------------------------------------------------------------------------
  // One tick
  // ---------------------------------------------------------------------------

  /** A lost write of the Succeeded phase is survivable only if the tick ends with it. */
  ghost predicate Covered(cfg: Config, m: FaultModel) {
    cfg.skipAnalysis ==> !Allows(m, SetStatusPhase(Succeeded), Lost)
  }

  lemma RollBackMeets(cfg: Config, m: FaultModel, w: World)
    requires Inv(cfg, w)
    ensures Meets(Law(cfg), m, cfg, ProgramOf(RollBack), w)
  {
    var w1 := Apply(cfg, SetRoutes(ALL_TO_PRIMARY), w);
    assert Meets(Law(cfg), m, cfg, ProgramOf(RollBack).ok, w1);
  }

  lemma AdvanceMeets(cfg: Config, m: FaultModel, w: World, r: Routes, counter: Call)
    requires Inv(cfg, w) && !AtRest(w.status.phase) && SplitsTraffic(r)
    requires || counter.SetStatusIterations? || counter.SetStatusWeight?
             || (counter == SetStatusPhase(Finalising) && r == ALL_TO_PRIMARY)
    ensures Meets(Law(cfg), m, cfg, ProgramOf(AdvanceTo(r, counter)), w)
  {
    MeetsTwo(Law(cfg), m, cfg, SetRoutes(r), counter, w);
  }

  /** The worlds after the calls of skipAnalysis. */
  function SkipWorlds(cfg: Config, w: World): (ws: seq<World>)
    ensures |ws| == 5 && forall v <- ws :: v.status == w.status
  {
    var w1 := Apply(cfg, SetRoutes(ALL_TO_PRIMARY), w);
    var w2 := Apply(cfg, CopyConfigs, w1);
    var w3 := Apply(cfg, Promote, w2);
    [w, w1, w2, w3, Apply(cfg, ScaleToZero, w3)]
  }

  lemma SkipKeepsInv(cfg: Config, w: World)
    requires Inv(cfg, w)
    ensures forall v <- SkipWorlds(cfg, w) :: Inv(cfg, v)
    ensures Inv(cfg, Apply(cfg, SetStatusPhase(Succeeded), SkipWorlds(cfg, w)[4]))
    ensures SkipWorlds(cfg, w)[3].routes == SkipWorlds(cfg, w)[4].routes == ALL_TO_PRIMARY
  {
  }

  /** The calls of skipAnalysis, with a program to fall back on. */
  function SkipProgram(r: Program): Program {
    Do(SetRoutes(ALL_TO_PRIMARY),
       Do(CopyConfigs, Do(Promote, Do(ScaleToZero, Do(SetStatusPhase(Succeeded), Halt, r), r), r), r), r)
  }

  lemma SkipCallsMeet(k: Contract, m: FaultModel, cfg: Config, w: World, r: Program)
    requires k.calls(SetRoutes(ALL_TO_PRIMARY)) && k.calls(CopyConfigs) && k.calls(Promote)
    requires k.calls(ScaleToZero) && k.calls(SetStatusPhase(Succeeded))
    requires forall v <- SkipWorlds(cfg, w) :: k.always(v) && Meets(k, m, cfg, r, v)
    requires var end := Apply(cfg, SetStatusPhase(Succeeded), SkipWorlds(cfg, w)[4]);
             Ends(k, end) && (Allows(m, SetStatusPhase(Succeeded), Lost) ==> Meets(k, m, cfg, r, end))
    ensures Meets(k, m, cfg, SkipProgram(r), w)
  {
    var ws := SkipWorlds(cfg, w);
    var end := Do(SetStatusPhase(Succeeded), Halt, r);
    var promote := Do(Promote, Do(ScaleToZero, end, r), r);
    MeetsElse(k, m, cfg, SetStatusPhase(Succeeded), Halt, r, ws[4]);
    MeetsElse(k, m, cfg, ScaleToZero, end, r, ws[3]);
    MeetsElse(k, m, cfg, Promote, Do(ScaleToZero, end, r), r, ws[2]);
    MeetsElse(k, m, cfg, CopyConfigs, promote, r, ws[1]);
    MeetsElse(k, m, cfg, SetRoutes(ALL_TO_PRIMARY), Do(CopyConfigs, promote, r), r, w);
  }

  lemma SkipIsSafe(cfg: Config, m: FaultModel, w: World, r: Program)
    requires !Allows(m, SetStatusPhase(Succeeded), Lost) && Inv(cfg, w)
    requires forall v <- SkipWorlds(cfg, w) :: Meets(Law(cfg), m, cfg, r, v)
    ensures Meets(Law(cfg), m, cfg, SkipProgram(r), w)
  {
    SkipKeepsInv(cfg, w);
    SkipCallsMeet(Law(cfg), m, cfg, w, r);
  }

  lemma OpeningMeets(cfg: Config, m: FaultModel, inp: Input, w0: World, w: World, move: Move)
    requires Opens(move) && Justified(cfg, inp, w0, move) && w.status.phase == w0.status.phase && Inv(cfg, w)
    ensures Meets(Law(cfg), m, cfg, ProgramOf(move), w)
  {
    var k := Law(cfg);
    match move {
      case AwaitRollout => MeetsOne(k, m, cfg, SetStatusPhase(Waiting), w);
      case Wake => MeetsTwo(k, m, cfg, SetStatusPhase(Progressing), ScaleFromZero, w);
      case Settle => MeetsOne(k, m, cfg, SyncStatus(Initialized), w);
      case Start => MeetsTwo(k, m, cfg, ScaleFromZero, SyncStatus(Progressing), w);
      case Restart => MeetsTwo(k, m, cfg, SetRoutes(ALL_TO_PRIMARY), SyncStatus(Progressing), w);
    }
  }

  lemma AdvanceIsSound(cfg: Config, inp: Input, w0: World, next: Routes, counter: Call)
    requires SoundSteps(cfg) && SplitsTraffic(GetRoutes(cfg, w0))
    requires Justified(cfg, inp, w0, AdvanceTo(next, counter))
    ensures SplitsTraffic(next)
    ensures || counter.SetStatusIterations? || counter.SetStatusWeight?
            || (counter == SetStatusPhase(Finalising) && next == ALL_TO_PRIMARY)
  {
    if w0.status.phase == Promoting {
      ShiftBackSplits(GetRoutes(cfg, w0), cfg.stepWeightPromotion);
    } else if IsProgressive(cfg) {
      AdvanceSplits(cfg, GetRoutes(cfg, w0));
    }
  }

  lemma BookingMeets(cfg: Config, m: FaultModel, w: World, move: Move)
    requires Books(move) && !AtRest(w.status.phase) && Inv(cfg, w)
    ensures Meets(Law(cfg), m, cfg, ProgramOf(move), w)
  {
    match move {
      case CountFailure(n) => MeetsOne(Law(cfg), m, cfg, SetStatusFailedChecks(n), w);
      case Count(n) => MeetsOne(Law(cfg), m, cfg, SetStatusIterations(n), w);
      case AwaitPromotion => MeetsOne(Law(cfg), m, cfg, SetStatusPhase(WaitingPromotion), w);
    }
  }

  lemma MirroringMeets(cfg: Config, m: FaultModel, w: World, n: int)
    requires !AtRest(w.status.phase) && Inv(cfg, w)
    ensures Meets(Law(cfg), m, cfg, ProgramOf(MirrorAndCount(n)), w)
  {
    MeetsBoth(Law(cfg), m, cfg, SetRoutes(Routes(TOTAL_WEIGHT, 0, true)), SetStatusIterations(n), w);
  }

  lemma ClosingMeets(cfg: Config, m: FaultModel, inp: Input, w0: World, w: World, move: Move)
    requires Closes(move) && Justified(cfg, inp, w0, move) && w.status.phase == w0.status.phase && Inv(cfg, w)
    ensures Meets(Law(cfg), m, cfg, ProgramOf(move), w)
  {
    var k := Law(cfg);
    match move {
      case RollBack => RollBackMeets(cfg, m, w);
      case PromoteCanary => PromotionMeets(k, m, cfg, w);
      case Finalise(routed) =>
        if routed {
          MeetsTwo(k, m, cfg, SetRoutes(ALL_TO_PRIMARY), SetStatusPhase(Finalising), w);
        } else {
          MeetsOne(k, m, cfg, SetStatusPhase(Finalising), w);
        }
      case Complete => MeetsTwo(k, m, cfg, ScaleToZero, SetStatusPhase(Succeeded), w);
    }
  }

  lemma MoveMeets(cfg: Config, m: FaultModel, inp: Input, w0: World, w: World, move: Move)
    requires SoundSteps(cfg) && SplitsTraffic(GetRoutes(cfg, w0))
    requires Justified(cfg, inp, w0, move) && !move.Skip? && w.status.phase == w0.status.phase && Inv(cfg, w)
    ensures Meets(Law(cfg), m, cfg, ProgramOf(move), w)
  {
    if Opens(move) {
      OpeningMeets(cfg, m, inp, w0, w, move);
    } else if Books(move) {
      BookingMeets(cfg, m, w, move);
    } else if move.MirrorAndCount? {
      MirroringMeets(cfg, m, w, move.iterations);
    } else if move.AdvanceTo? {
      AdvanceIsSound(cfg, inp, w0, move.routes, move.counter);
      AdvanceMeets(cfg, m, w, move.routes, move.counter);
    } else if Closes(move) {
      ClosingMeets(cfg, m, inp, w0, w, move);
    }
  }

  lemma SkippedMoveMeets(cfg: Config, m: FaultModel, inp: Input, w0: World, w: World, move: Move)
    requires SoundSteps(cfg) && Covered(cfg, m) && SplitsTraffic(GetRoutes(cfg, w0))
    requires Justified(cfg, inp, w0, move) && w.status.phase == w0.status.phase && Inv(cfg, w)
    ensures Meets(Law(cfg), m, cfg, ProgramOf(move), w)
  {
    if move.Skip? {
      SkipKeepsInv(cfg, w);
      forall v <- SkipWorlds(cfg, w)
        ensures Meets(Law(cfg), m, cfg, ProgramOf(move.otherwise), v)
      {
        MoveMeets(cfg, m, inp, w0, v, move.otherwise);
      }
      SkipIsSafe(cfg, m, w, ProgramOf(move.otherwise));
    } else {
      MoveMeets(cfg, m, inp, w0, w, move);
    }
  }

  lemma TickMeets(cfg: Config, m: FaultModel, inp: Input, w: World)
    requires SoundSteps(cfg) && Covered(cfg, m) && Inv(cfg, w)
    ensures Meets(Law(cfg), m, cfg, TickProgram(cfg, inp, w), w)
  {
    TickMoveIsJustified(cfg, inp, w);
    forall v | Ends(Law(cfg), v) && SameRollout(w, v)
      ensures Meets(Law(cfg), m, cfg, ProgramOf(TickMove(cfg, inp, w)), v)
    {
      SkippedMoveMeets(cfg, m, inp, w, v, TickMove(cfg, inp, w));
    }
    TickByMoves(Law(cfg), m, cfg, inp, w);
  }

  // ---------------------------------------------------------------------------
  // Every run
  // ---------------------------------------------------------------------------

  lemma {:induction false} RunKeepsInv(cfg: Config, m: FaultModel, es: seq<Event>, w: World)
    requires SoundSteps(cfg) && Covered(cfg, m) && Inv(cfg, w) && RunWithin(m, cfg, es, w)
    ensures Inv(cfg, Run(cfg, es, w))
    ensures forall v | Occurs(cfg, es, w, v) :: Inv(cfg, v)
    ensures forall c | Makes(cfg, es, w, c) && c.SetRoutes? :: SplitsTraffic(c.routes)
  {
    if es != [] {
      var init, e := es[..|es| - 1], es[|es| - 1];
      RunKeepsInv(cfg, m, init, w);
      if e.Advance? {
        var before := Run(cfg, init, w);
        TickMeets(cfg, m, e.inp, before);
        MeetsIsSound(Law(cfg), m, cfg, TickProgram(cfg, e.inp, before), e.faults, before);
      }
    }
  }

  /** Main result: from a fresh Canary object, whatever the users edit and whatever fails,
      every weight pair sent is a split of 100, and no world outside a rollout ever has
      traffic on the canary, not even between two calls of a tick. With skipAnalysis this
      needs one failure less, see LostSuccessBreaksSafety. */
  lemma TrafficIsSafe(cfg: Config, m: FaultModel, es: seq<Event>, w: World)
    requires SoundSteps(cfg) && Covered(cfg, m) && Fresh(w) && RunWithin(m, cfg, es, w)
    ensures forall v | Occurs(cfg, es, w, v) :: RoutesSafe(v)
    ensures forall c | Makes(cfg, es, w, c) && c.SetRoutes? :: SplitsTraffic(c.routes)
  {
    RunKeepsInv(cfg, m, es, w);
  }

  // ---------------------------------------------------------------------------
  // The failure that must not happen
  // ---------------------------------------------------------------------------

  const SKIPPING := Config(Mesh(false), true, 1, 0, false, 50, 10, [], 0, false, [])

  /** What skipAnalysis comes to when its first four calls succeed and the write of phase
      Succeeded ends with `o`. */
  lemma SkipEnds(cfg: Config, w: World, rest: Move, o: Outcome)
    ensures var v := Apply(cfg, ScaleToZero, Apply(cfg, Promote, Apply(cfg, SetRoutes(ALL_TO_PRIMARY), w)));
            var u := Effect(cfg, SetStatusPhase(Succeeded), o, v);
            Exec(cfg, ProgramOf(Skip(rest)), [Done, Done, Done, Done, o], w) ==
              if o.Done? then u else Exec(cfg, ProgramOf(rest), [], u)
  {
    var p, faults := ProgramOf(Skip(rest)), [Done, Done, Done, Done, o];
    var w1 := Apply(cfg, SetRoutes(ALL_TO_PRIMARY), w);
    var w2 := Apply(cfg, CopyConfigs, w1);
    var w3 := Apply(cfg, Promote, w2);
    ExecOne(cfg, p, faults, w);
    ExecOne(cfg, p.ok, faults[1..], w1);
    ExecOne(cfg, p.ok.ok, faults[2..], w2);
    ExecOne(cfg, p.ok.ok.ok, faults[3..], w3);
    assert w3 == Apply(cfg, Promote, w1);
    ExecOne(cfg, p.ok.ok.ok.ok, faults[4..], Apply(cfg, ScaleToZero, w3));
  }

  /** skipAnalysis without failures. */
  lemma SkipExec(cfg: Config, w: World, rest: Move)
    ensures var v := Apply(cfg, ScaleToZero, Apply(cfg, Promote, Apply(cfg, SetRoutes(ALL_TO_PRIMARY), w)));
            Exec(cfg, ProgramOf(Skip(rest)), [], w) == Apply(cfg, SetStatusPhase(Succeeded), v)
  {
    var faults := [Done, Done, Done, Done, Done];
    SkipEnds(cfg, w, rest, Done);
    DoneIsNoFault(ProgramOf(Skip(rest)), faults);
    NothingFails(cfg, ProgramOf(Skip(rest)), faults, w);
  }

  /** A Succeeded write that is not done, when the strategy goes on to change the traffic. */
  lemma FailedSkip(cfg: Config, w: World, r: Routes, counter: Call, o: Outcome)
    requires !cfg.provider.Kubernetes? && (counter.SetStatusWeight? || counter.SetStatusIterations?) && !o.Done?
    ensures var v := Exec(cfg, ProgramOf(Skip(AdvanceTo(r, counter))), [Done, Done, Done, Done, o], w);
            && v.status.phase == (if o.Refused? then w.status.phase else Succeeded)
            && v.routes == Apply(cfg, SetRoutes(r), w).routes && v.replicas == 0
  {
    var v := Apply(cfg, ScaleToZero, Apply(cfg, Promote, Apply(cfg, SetRoutes(ALL_TO_PRIMARY), w)));
    var u := Effect(cfg, SetStatusPhase(Succeeded), o, v);
    SkipEnds(cfg, w, AdvanceTo(r, counter), o);
    ExecTwo(cfg, SetRoutes(r), counter, u);
    assert u.status.phase == (if o.Refused? then w.status.phase else Succeeded);
  }

  /** Of the ways that write can end, exactly the one that takes effect and reports an error
      leaves traffic where the phase does not allow it, whenever the strategy would give the
      canary traffic, be it a weight or all of it. (A refused write does another kind of harm,
      see ReplicaSafety.SkipStarvesExactly.) */
  lemma SkipBreaksExactly(cfg: Config, w: World, r: Routes, counter: Call, o: Outcome)
    requires Inv(cfg, w) && !AtRest(w.status.phase) && !cfg.provider.Kubernetes?
    requires SplitsTraffic(r) && r.canary > 0 && (counter.SetStatusWeight? || counter.SetStatusIterations?)
    ensures RoutesSafe(Exec(cfg, ProgramOf(Skip(AdvanceTo(r, counter))), [Done, Done, Done, Done, o], w)) <==>
            o != Lost
  {
    if o.Done? {
      SkipEnds(cfg, w, AdvanceTo(r, counter), o);
    } else {
      FailedSkip(cfg, w, r, counter, o);
    }
  }

  lemma SkippingMove(w: World)
    requires w.status.phase == Progressing && w.status.failedChecks == w.status.iterations == 0
    requires w.status.lastAppliedSpec == Some("v2") && w.status.trackedConfigs == Some(map[])
    requires w.target == V2 && w.routes == ALL_TO_PRIMARY
    ensures TickMove(SKIPPING, CALM, w) == Skip(AdvanceTo(Routes(90, 10, false), SetStatusWeight(10)))
  {
  }

  lemma FailedSkipTick(cfg: Config, inp: Input, w: World, r: Routes, counter: Call, o: Outcome)
    requires !cfg.provider.Kubernetes? && (counter.SetStatusWeight? || counter.SetStatusIterations?) && !o.Done?
    requires inp.bootstrapped && w.primary.Some? && !IsNew(w.status.phase)
    requires TickMove(cfg, inp, w) == Skip(AdvanceTo(r, counter))
    ensures var v := Step(cfg, Advance(inp, [Done, Done, Done, Done, o]), w);
            && v.status.phase == (if o.Refused? then w.status.phase else Succeeded)
            && v.routes == Apply(cfg, SetRoutes(r), w).routes && v.replicas == 0
  {
    FailedSkip(cfg, w, r, counter, o);
  }

  /** A new canary, a new revision, and a tick of skipAnalysis whose last write fails. */
  function FailedSkipRun(o: Outcome): seq<Event> {
    [TICK, Edit(V2), TICK, Advance(CALM, [Done, Done, Done, Done, o])]
  }

  lemma FailedSkipRunEnds(o: Outcome)
    requires !o.Done?
    ensures var v := Run(SKIPPING, FailedSkipRun(o), NEW_CANARY);
            && v.status.phase == (if o.Refused? then Progressing else Succeeded)
            && v.routes == Routes(90, 10, false) && v.replicas == 0
  {
    var es := FailedSkipRun(o);
    var w1 := Step(SKIPPING, TICK, NEW_CANARY);
    var w2 := w1.(target := V2);
    var w3 := Step(SKIPPING, TICK, w2);
    Started(SKIPPING);
    var w4 := Step(SKIPPING, es[3], w3);
    SkippingMove(w3);
    FailedSkipTick(SKIPPING, CALM, w3, Routes(90, 10, false), SetStatusWeight(10), o);
    TraceIsRun(SKIPPING, es, [NEW_CANARY, w1, w2, w3, w4]);
  }

  /** skipAnalysis on, and the write of phase Succeeded takes effect but reports an error:
      the tick falls through to the analysis and moves traffic in phase Succeeded. */
  lemma LostSuccessBreaksSafety()
    ensures Fresh(NEW_CANARY) && SoundSteps(SKIPPING)
    ensures var v := Run(SKIPPING, FailedSkipRun(Lost), NEW_CANARY);
            v.status.phase == Succeeded && v.routes == Routes(90, 10, false) && !RoutesSafe(v)
  {
    FailedSkipRunEnds(Lost);
  }
}
