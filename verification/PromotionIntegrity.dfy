// What a promotion puts into the primary is the revision that was analysed and recorded.

module PromotionIntegrity {
  import opened Options
  import opened CanaryStatus
  import opened CanarySpec
  import opened Analysis
  import opened Cluster
  import opened ConfigTracker
  import opened Tick
  import opened Moves
  import opened RouteSafety
  import opened Scenarios

  /** The status records the revision `r`. */
  predicate Records(s: Status, r: Revision) {
    s.lastAppliedSpec == Some(r.template) && s.trackedConfigs == Some(r.configs)
  }

  /** From the promotion on, the primary runs the recorded revision; a finished rollout has
      also recorded it as promoted. */
  ghost predicate Faithful(w: World) {
    && (w.status.lastAppliedSpec.Some? ==> w.status.trackedConfigs.Some?)
    && (w.status.phase.Promoting? || w.status.phase.Finalising? || w.status.phase.Succeeded? ==>
          w.primary.Some? && Records(w.status, w.primary.value))
    && (w.status.phase == Succeeded ==> w.status.lastPromotedSpec == w.status.lastAppliedSpec)
  }

  ghost function FaithLaw(): Contract {
    Contract((w: World) => Faithful(w), (c: Call) => true, (w: World) => true)
  }

  /** The target was put back to the promoted template while another one is being analysed. */
  predicate Reverted(w: World) {
    w.status.lastPromotedSpec == Some(w.target.template) && w.status.lastAppliedSpec != Some(w.target.template)
  }

  /** The revision check of an analysing tick can be relied on: both reads succeed, and the
      target has not been reverted. With skipAnalysis a tick of a later phase promotes again
      without the check, so that the target must not have changed. */
  predicate Reliable(cfg: Config, inp: Input, w: World) {
    && (Analysing(w.status.phase) ==> inp.targetReread && inp.configsReread && !Reverted(w))
    && (cfg.skipAnalysis && (w.status.phase == Promoting || w.status.phase == Finalising) ==>
          Records(w.status, w.target))
  }

  ghost predicate RunReliable(cfg: Config, es: seq<Event>, w: World) {
    es != [] ==>
      var init, e := es[..|es| - 1], es[|es| - 1];
      RunReliable(cfg, init, w) && (e.Advance? ==> Reliable(cfg, e.inp, Run(cfg, init, w)))
  }

  /** A tick that goes on with its analysis has found the recorded revision in the target. */
  lemma UnchangedMeansRecorded(inp: Input, w: World)
    requires Faithful(w) && Analysing(w.status.phase)
    requires inp.targetReread && inp.configsReread && !RevisionChanged(inp, w)
    ensures Records(w.status, w.target) <==> !Reverted(w)
  {
  }

  /** The status and the target have not changed since the tick began. */
  predicate SameTarget(w0: World, w: World) {
    w.status == w0.status && w.target == w0.target
  }

  lemma FaithOpening(cfg: Config, inp: Input, w0: World, w: World, move: Move)
    requires Faithful(w) && SameTarget(w0, w) && Opens(move) && Justified(cfg, inp, w0, move)
    ensures Meets(FaithLaw(), AnyFault, cfg, ProgramOf(move), w)
  {
    var k := FaithLaw();
    match move {
      case AwaitRollout => MeetsOne(k, AnyFault, cfg, SetStatusPhase(Waiting), w);
      case Wake => MeetsTwo(k, AnyFault, cfg, SetStatusPhase(Progressing), ScaleFromZero, w);
      case Settle => MeetsOne(k, AnyFault, cfg, SyncStatus(Initialized), w);
      case Start => MeetsTwo(k, AnyFault, cfg, ScaleFromZero, SyncStatus(Progressing), w);
      case Restart => MeetsTwo(k, AnyFault, cfg, SetRoutes(ALL_TO_PRIMARY), SyncStatus(Progressing), w);
    }
  }

  lemma FaithBooking(cfg: Config, w: World, move: Move)
    requires Faithful(w) && Books(move)
    ensures Meets(FaithLaw(), AnyFault, cfg, ProgramOf(move), w)
  {
    match move {
      case CountFailure(n) => MeetsOne(FaithLaw(), AnyFault, cfg, SetStatusFailedChecks(n), w);
      case Count(n) => MeetsOne(FaithLaw(), AnyFault, cfg, SetStatusIterations(n), w);
      case AwaitPromotion => MeetsOne(FaithLaw(), AnyFault, cfg, SetStatusPhase(WaitingPromotion), w);
    }
  }

  lemma FaithMirroring(cfg: Config, w: World, n: int)
    requires Faithful(w)
    ensures Meets(FaithLaw(), AnyFault, cfg, ProgramOf(MirrorAndCount(n)), w)
  {
    MeetsBoth(FaithLaw(), AnyFault, cfg, SetRoutes(Routes(TOTAL_WEIGHT, 0, true)), SetStatusIterations(n), w);
  }

  lemma FaithAdvance(cfg: Config, w: World, r: Routes, counter: Call)
    requires Faithful(w)
    requires || counter.SetStatusIterations? || counter.SetStatusWeight?
             || (counter == SetStatusPhase(Finalising) && w.status.phase == Promoting)
    ensures Meets(FaithLaw(), AnyFault, cfg, ProgramOf(AdvanceTo(r, counter)), w)
  {
    MeetsTwo(FaithLaw(), AnyFault, cfg, SetRoutes(r), counter, w);
  }

  lemma FaithRollBack(cfg: Config, w: World)
    requires Faithful(w)
    ensures Meets(FaithLaw(), AnyFault, cfg, ProgramOf(RollBack), w)
  {
    MeetsTwo(FaithLaw(), AnyFault, cfg, ScaleToZero, SyncStatus(Failed), Apply(cfg, SetRoutes(ALL_TO_PRIMARY), w));
  }

  lemma FaithFinalising(cfg: Config, w: World, routed: bool)
    requires Faithful(w) && w.status.phase == Promoting
    ensures Meets(FaithLaw(), AnyFault, cfg, ProgramOf(Finalise(routed)), w)
  {
    if routed {
      MeetsTwo(FaithLaw(), AnyFault, cfg, SetRoutes(ALL_TO_PRIMARY), SetStatusPhase(Finalising), w);
    } else {
      MeetsOne(FaithLaw(), AnyFault, cfg, SetStatusPhase(Finalising), w);
    }
  }

  lemma FaithClosing(cfg: Config, inp: Input, w0: World, w: World, move: Move)
    requires Reliable(cfg, inp, w0) && Faithful(w0) && Faithful(w) && SameTarget(w0, w)
    requires Closes(move) && Justified(cfg, inp, w0, move)
    ensures Meets(FaithLaw(), AnyFault, cfg, ProgramOf(move), w)
  {
    var k := FaithLaw();
    match move {
      case RollBack => FaithRollBack(cfg, w);
      case PromoteCanary =>
        UnchangedMeansRecorded(inp, w0);
        PromotionMeets(k, AnyFault, cfg, w);
      case Finalise(routed) => FaithFinalising(cfg, w, routed);
      case Complete => MeetsTwo(k, AnyFault, cfg, ScaleToZero, SetStatusPhase(Succeeded), w);
    }
  }

  lemma FaithMove(cfg: Config, inp: Input, w0: World, w: World, move: Move)
    requires Reliable(cfg, inp, w0) && Faithful(w0) && Faithful(w) && SameTarget(w0, w)
    requires Justified(cfg, inp, w0, move) && !move.Skip?
    ensures Meets(FaithLaw(), AnyFault, cfg, ProgramOf(move), w)
  {
    if Opens(move) {
      FaithOpening(cfg, inp, w0, w, move);
    } else if Books(move) {
      FaithBooking(cfg, w, move);
    } else if move.MirrorAndCount? {
      FaithMirroring(cfg, w, move.iterations);
    } else if move.AdvanceTo? {
      FaithAdvance(cfg, w, move.routes, move.counter);
    } else if Closes(move) {
      FaithClosing(cfg, inp, w0, w, move);
    }
  }

  /** The target is in the primary and on record. */
  predicate Live(w: World) {
    && w.primary == Some(w.target) && Records(w.status, w.target)
    && (w.status.phase == Succeeded ==> w.status.lastPromotedSpec == w.status.lastAppliedSpec)
  }

  /** The program records success by the phase write only, which records the promotion as well. */
  predicate RecordsSuccess(p: Program) {
    p.Do? ==> p.call != SyncStatus(Succeeded) && RecordsSuccess(p.ok) && RecordsSuccess(p.err)
  }

  lemma {:induction false} LiveMeets(cfg: Config, p: Program, w: World)
    requires RecordsSuccess(p) && Live(w)
    ensures Meets(FaithLaw(), AnyFault, cfg, p, w)
  {
    if p.Do? {
      var done := Apply(cfg, p.call, w);
      LiveMeets(cfg, p.ok, done);
      LiveMeets(cfg, p.err, done);
      LiveMeets(cfg, p.err, w);
    }
  }

  lemma MovesRecordSuccess(cfg: Config, inp: Input, w: World, move: Move)
    requires Justified(cfg, inp, w, move) && !move.Skip?
    ensures RecordsSuccess(ProgramOf(move))
  {
    if move.AdvanceTo? {
      assert RecordsSuccess(Then(move.counter, Halt));
    } else if move.RollBack? {
      assert RecordsSuccess(Then(ScaleToZero, Then(SyncStatus(Failed), Halt)));
    }
  }

  /** The calls of skipAnalysis promote the recorded revision. */
  lemma SkipKeepsFaith(cfg: Config, w: World)
    requires Faithful(w) && Records(w.status, w.target)
    ensures forall v <- SkipWorlds(cfg, w) :: Faithful(v) && SameTarget(w, v)
    ensures Live(Apply(cfg, SetStatusPhase(Succeeded), SkipWorlds(cfg, w)[4]))
  {
  }

  lemma SkipMeansRecorded(cfg: Config, inp: Input, w: World, move: Move)
    requires Reliable(cfg, inp, w) && Faithful(w) && Justified(cfg, inp, w, move) && move.Skip?
    ensures Records(w.status, w.target)
  {
    if Analysing(w.status.phase) {
      UnchangedMeansRecorded(inp, w);
    }
  }

  lemma FaithSkip(cfg: Config, inp: Input, w0: World, w: World, rest: Move)
    requires Reliable(cfg, inp, w0) && Faithful(w0) && Faithful(w) && SameTarget(w0, w)
    requires Justified(cfg, inp, w0, Skip(rest))
    ensures Meets(FaithLaw(), AnyFault, cfg, SkipProgram(ProgramOf(rest)), w)
  {
    SkipMeansRecorded(cfg, inp, w0, Skip(rest));
    SkipKeepsFaith(cfg, w);
    forall v <- SkipWorlds(cfg, w)
      ensures Meets(FaithLaw(), AnyFault, cfg, ProgramOf(rest), v)
    {
      FaithMove(cfg, inp, w0, v, rest);
    }
    MovesRecordSuccess(cfg, inp, w0, rest);
    LiveMeets(cfg, ProgramOf(rest), Apply(cfg, SetStatusPhase(Succeeded), SkipWorlds(cfg, w)[4]));
    SkipCallsMeet(FaithLaw(), AnyFault, cfg, w, ProgramOf(rest));
  }

  lemma FaithAnyMove(cfg: Config, inp: Input, w0: World, w: World, move: Move)
    requires Reliable(cfg, inp, w0) && Faithful(w0) && Faithful(w) && SameTarget(w0, w)
    requires Justified(cfg, inp, w0, move)
    ensures Meets(FaithLaw(), AnyFault, cfg, ProgramOf(move), w)
  {
    if move.Skip? {
      FaithSkip(cfg, inp, w0, w, move.otherwise);
    } else {
      FaithMove(cfg, inp, w0, w, move);
    }
  }

  lemma FaithTick(cfg: Config, inp: Input, w: World)
    requires Reliable(cfg, inp, w) && Faithful(w)
    ensures Meets(FaithLaw(), AnyFault, cfg, TickProgram(cfg, inp, w), w)
  {
    TickMoveIsJustified(cfg, inp, w);
    forall v | Ends(FaithLaw(), v) && SameRollout(w, v)
      ensures Meets(FaithLaw(), AnyFault, cfg, ProgramOf(TickMove(cfg, inp, w)), v)
    {
      FaithAnyMove(cfg, inp, w, v, TickMove(cfg, inp, w));
    }
    TickByMoves(FaithLaw(), AnyFault, cfg, inp, w);
  }

  /** Main result: whatever fails, Promoting, Finalising and Succeeded are only ever seen
      with the recorded revision in the primary. */
  lemma {:induction false} PromotionsAreFaithful(cfg: Config, es: seq<Event>, w: World)
    requires Fresh(w) && RunReliable(cfg, es, w)
    ensures forall v | Occurs(cfg, es, w, v) :: Faithful(v)
    ensures Faithful(Run(cfg, es, w))
  {
    if es != [] {
      var init, e := es[..|es| - 1], es[|es| - 1];
      PromotionsAreFaithful(cfg, init, w);
      if e.Advance? {
        var before := Run(cfg, init, w);
        var p := TickProgram(cfg, e.inp, before);
        FaithTick(cfg, e.inp, before);
        AnyFaultIsWithin(p, e.faults);
        MeetsIsSound(FaithLaw(), AnyFault, cfg, p, e.faults, before);
        LastIsVisited(cfg, p, e.faults, before);
      }
    }
  }

  /** A finished rollout is idle exactly when the primary runs the target. */
  lemma IdleMeansInSync(w: World)
    requires Faithful(w) && w.status.phase == Succeeded
    ensures !TargetChanged(w) && !ConfigsChanged(w) <==> w.primary == Some(w.target)
  {
  }

  /** Every run: once the target has been promoted, a quiet scheduler means it is live. */
  lemma QuietMeansLive(cfg: Config, es: seq<Event>, w: World, inp: Input)
    requires Fresh(w) && RunReliable(cfg, es, w)
    requires inp.targetRead && inp.configsRead
    ensures var v := Run(cfg, es, w);
            v.status.phase == Succeeded ==> (!ShouldAdvance(inp, v) <==> v.primary == Some(v.target))
  {
    PromotionsAreFaithful(cfg, es, w);
    if Run(cfg, es, w).status.phase == Succeeded {
      IdleMeansInSync(Run(cfg, es, w));
    }
  }

  // ---------------------------------------------------------------------------
  // The edit that must not happen
  // ---------------------------------------------------------------------------

  /** Whatever the tick could read: a promotion leaves record and primary in agreement exactly
      if the target is the revision on record. If both reads succeed, that is unless the
      target was reverted. */
  lemma PromotesFaithfullyExactly(cfg: Config, inp: Input, w: World)
    requires Faithful(w) && w.primary.Some? && inp.bootstrapped && TickMove(cfg, inp, w) == PromoteCanary
    ensures var v := Exec(cfg, TickProgram(cfg, inp, w), [], w);
            && v.status.phase == Promoting && v.primary == Some(w.target)
            && (Faithful(v) <==> Records(w.status, w.target))
    ensures inp.targetReread && inp.configsReread ==> (Records(w.status, w.target) <==> !Reverted(w))
  {
    TickMoveIsJustified(cfg, inp, w);
    assert TickProgram(cfg, inp, w) == ProgramOf(PromoteCanary);
    PromotionExec(cfg, w);
  }

  /** The same for the promotion that takes the place of an analysis. From the promotion on there
      is no revision check, and then it is that the target has not been edited. */
  lemma SkipPromotesFaithfullyExactly(cfg: Config, inp: Input, w: World)
    requires Faithful(w) && w.primary.Some? && inp.bootstrapped && TickMove(cfg, inp, w).Skip?
    ensures var v := Exec(cfg, TickProgram(cfg, inp, w), [], w);
            && v.status.phase == Succeeded && v.primary == Some(w.target)
            && (Faithful(v) <==> Records(w.status, w.target))
    ensures Analysing(w.status.phase) && inp.targetReread && inp.configsReread ==>
              (Records(w.status, w.target) <==> !Reverted(w))
    ensures w.status.phase == Promoting || w.status.phase == Finalising ==>
              (Records(w.status, w.target) <==> w.primary == Some(w.target))
  {
    var move := TickMove(cfg, inp, w);
    TickMoveIsJustified(cfg, inp, w);
    assert TickProgram(cfg, inp, w) == ProgramOf(move);
    SkipExec(cfg, w, move.otherwise);
  }

  const PROMOTING_V2 := LIVE_V2.(status := LIVE_V2.status.(phase := Promoting, lastPromotedSpec := Some("v1")))

  lemma SkippedPromotion(w: World)
    requires w.status.phase == Promoting && w.status.failedChecks == 0 && w.primary.Some?
    ensures var v := Step(SKIPPING, TICK, w);
            && v.status.phase == Succeeded && v.primary == Some(w.target)
            && v.status.lastPromotedSpec == v.status.lastAppliedSpec == w.status.lastAppliedSpec
            && v.status.trackedConfigs == w.status.trackedConfigs
  {
    assert TickMove(SKIPPING, CALM, w).Skip?;
    SkipExec(SKIPPING, w, TickMove(SKIPPING, CALM, w).otherwise);
  }

  /** v3 is deployed while v2 is being promoted: it goes live at once, and v2 is recorded. */
  lemma EditedPromotionIsUnrecorded()
    ensures Faithful(PROMOTING_V2)
    ensures var v := Run(SKIPPING, [Edit(V3), TICK], PROMOTING_V2);
            && v.status.phase == Succeeded && v.primary == Some(V3) && !Faithful(v)
            && v.status.lastAppliedSpec == v.status.lastPromotedSpec == Some("v2")
  {
    var w := PROMOTING_V2.(target := V3);
    var v := Step(SKIPPING, TICK, w);
    SkippedPromotion(w);
    TraceIsRun(SKIPPING, [Edit(V3), TICK], [PROMOTING_V2, w, v]);
  }

  /** A failed read counts as no change: a new target is then promoted without having been
      recorded, and without any revert. */
  lemma DroppedReadPromotesUnrecorded(cfg: Config, inp: Input, w: World)
    requires Faithful(w) && w.primary.Some? && inp.bootstrapped && TickMove(cfg, inp, w) == PromoteCanary
    requires TargetChanged(w) && w.status.lastAppliedSpec.Some?
    ensures !inp.targetReread && !Reverted(w)
    ensures !Faithful(Exec(cfg, TickProgram(cfg, inp, w), [], w))
  {
    TickMoveIsJustified(cfg, inp, w);
    PromotesFaithfullyExactly(cfg, inp, w);
  }

  const PLAIN := Config(Mesh(false), false, 1, 0, false, 50, 100, [], 0, false, [])

  const LIVE_V2: World := World(
    Status(Succeeded, 0, 0, 0, Some(map[]), Some("v2"), Some("v2"), 0, None), V2, Some(V2), 0, ALL_TO_PRIMARY, 1)

  /** A rollout of v3 in a world whose target and primary are at v2. */
  predicate ReversedRollout(w: World, phase: Phase, routes: Routes) {
    && w.status.phase == phase && w.status.failedChecks == w.status.iterations == 0
    && w.status.lastAppliedSpec == Some("v3") && w.status.lastPromotedSpec == Some("v2")
    && w.status.trackedConfigs == Some(map[])
    && w.target == V2 && w.primary == Some(V2) && w.routes == routes
  }

  lemma StartOfV3()
    ensures ReversedRollout(Step(PLAIN, TICK, LIVE_V2.(target := V3)).(target := V2), Progressing, ALL_TO_PRIMARY)
  {
    var w := LIVE_V2.(target := V3);
    assert TickMove(PLAIN, CALM, w) == Start;
    TickOfTwo(PLAIN, CALM, w, ScaleFromZero, SyncStatus(Progressing));
  }

  lemma ReversedAdvance(w: World)
    requires ReversedRollout(w, Progressing, ALL_TO_PRIMARY)
    ensures ReversedRollout(Step(PLAIN, TICK, w), Progressing, ALL_TO_CANARY)
  {
    assert TickMove(PLAIN, CALM, w) == AdvanceTo(ALL_TO_CANARY, SetStatusWeight(100));
    TickOfTwo(PLAIN, CALM, w, SetRoutes(ALL_TO_CANARY), SetStatusWeight(100));
  }

  lemma ReversedPromotion(w: World)
    requires ReversedRollout(w, Progressing, ALL_TO_CANARY)
    ensures ReversedRollout(Step(PLAIN, TICK, w), Promoting, ALL_TO_CANARY)
  {
    assert TickMove(PLAIN, CALM, w) == PromoteCanary;
    PromotionExec(PLAIN, w);
  }

  lemma ReversedFinalising(w: World)
    requires ReversedRollout(w, Promoting, ALL_TO_CANARY)
    ensures ReversedRollout(Step(PLAIN, TICK, w), Finalising, ALL_TO_PRIMARY)
  {
    assert TickMove(PLAIN, CALM, w) == Finalise(true);
    TickOfTwo(PLAIN, CALM, w, SetRoutes(ALL_TO_PRIMARY), SetStatusPhase(Finalising));
  }

  lemma ReversedEnd(w: World)
    requires ReversedRollout(w, Finalising, ALL_TO_PRIMARY)
    ensures var v := Step(PLAIN, TICK, w);
            && v.status.phase == Succeeded && v.primary == Some(V2) && v.status.trackedConfigs == Some(map[])
            && v.status.lastAppliedSpec == v.status.lastPromotedSpec == Some("v3")
  {
    assert TickMove(PLAIN, CALM, w) == Complete;
    TickOfTwo(PLAIN, CALM, w, ScaleToZero, SetStatusPhase(Succeeded));
  }

  /** v3 is being analysed when the user returns to v2, the promoted revision. The rollout
      goes on, puts v2 into the primary and records v3 as promoted; deploying v3 afterwards
      is then taken for "nothing to do", and v2 stays live. */
  lemma RevertDuringRolloutIsForgotten()
    ensures Faithful(LIVE_V2)
    ensures var es := [Edit(V3), TICK, Edit(V2), TICK, TICK, TICK, TICK, Edit(V3)];
            var v := Run(PLAIN, es, LIVE_V2);
            && v.status.phase == Succeeded && !ShouldAdvance(CALM, v)
            && v.target == V3 && v.primary == Some(V2)
  {
    var es := [Edit(V3), TICK, Edit(V2), TICK, TICK, TICK, TICK, Edit(V3)];
    var w1 := LIVE_V2.(target := V3);
    var w2 := Step(PLAIN, TICK, w1);
    var w3 := w2.(target := V2);
    StartOfV3();
    var w4 := Step(PLAIN, TICK, w3);
    ReversedAdvance(w3);
    var w5 := Step(PLAIN, TICK, w4);
    ReversedPromotion(w4);
    var w6 := Step(PLAIN, TICK, w5);
    ReversedFinalising(w5);
    var w7 := Step(PLAIN, TICK, w6);
    ReversedEnd(w6);
    var w8 := w7.(target := V3);
    TraceIsRun(PLAIN, es, [LIVE_V2, w1, w2, w3, w4, w5, w6, w7, w8]);
  }

  const STARTING := CALM.(primaryReadyAtInit := false)

  lemma InitialTickWithoutPrimary(w: World)
    requires w == NEW_CANARY
    ensures Step(PLAIN, Advance(STARTING, []), w) == Apply(PLAIN, CreatePrimary, w)
  {
    ExecOne(PLAIN, Then(CreatePrimary, Halt), [], w);
  }

  lemma SettlingTick(w: World)
    requires w == NEW_CANARY.(target := V2, primary := Some(V1))
    ensures var v := Step(PLAIN, TICK, w);
            && v.status.phase == Initialized && v.primary == Some(V1) && v.target == V2
            && v.status.lastAppliedSpec == Some("v2") && v.status.trackedConfigs == Some(map[])
  {
    assert TickMove(PLAIN, CALM, w) == Settle;
    assert TickProgram(PLAIN, CALM, w) == Then(ScaleToZero, ProgramOf(Settle));
    ExecTwo(PLAIN, ScaleToZero, SyncStatus(Initialized), w);
  }

  // ---------------------------------------------------------------------------
  // Phase Initialized
  // ---------------------------------------------------------------------------

  /** The tick that settles a new canary leaves record and primary in agreement exactly if it
      creates the primary, or finds the target there. */
  lemma SettlesFaithfullyExactly(cfg: Config, inp: Input, w: World)
    requires inp.bootstrapped && (cfg.skipAnalysis || inp.primaryReadyAtInit) && TickMove(cfg, inp, w) == Settle
    ensures var v := Exec(cfg, TickProgram(cfg, inp, w), [], w);
            && v.status.phase == Initialized && v.primary.Some?
            && (Records(v.status, v.primary.value) <==> w.primary.None? || w.primary == Some(w.target))
  {
    TickMoveIsJustified(cfg, inp, w);
    var park := Then(ScaleToZero, ProgramOf(Settle));
    if w.primary.None? {
      assert TickProgram(cfg, inp, w) == Then(CreatePrimary, park);
      ExecOne(cfg, Then(CreatePrimary, park), [], w);
      ExecTwo(cfg, ScaleToZero, SyncStatus(Initialized), Apply(cfg, CreatePrimary, w));
    } else {
      assert TickProgram(cfg, inp, w) == park;
      ExecTwo(cfg, ScaleToZero, SyncStatus(Initialized), w);
    }
  }

  /** A new canary's primary is at the target, and phase Initialized has it on record. */
  ghost predicate SetUp(w: World) {
    && (IsNew(w.status.phase) && w.primary.Some? ==> w.primary == Some(w.target))
    && (w.status.phase == Initialized ==> w.primary.Some? && Records(w.status, w.primary.value))
  }

  ghost function SetUpLaw(): Contract {
    Contract((w: World) => SetUp(w), (c: Call) => true, (w: World) => true)
  }

  predicate IsSetUp(phase: Phase) {
    !IsNew(phase) && phase != Initialized
  }

  /** The program does not take the status back to the beginning. */
  predicate GoesForward(p: Program) {
    p.Do? ==>
      && (p.call.SyncStatus? ==> IsSetUp(p.call.syncedPhase))
      && (p.call.SetStatusPhase? ==> IsSetUp(p.call.phase))
      && GoesForward(p.ok) && GoesForward(p.err)
  }

  lemma {:induction false} ForwardMeets(cfg: Config, p: Program, w: World)
    requires GoesForward(p) && IsSetUp(w.status.phase)
    ensures Meets(SetUpLaw(), AnyFault, cfg, p, w)
  {
    if p.Do? {
      var done := Apply(cfg, p.call, w);
      ForwardMeets(cfg, p.ok, done);
      ForwardMeets(cfg, p.err, done);
      ForwardMeets(cfg, p.err, w);
    }
  }

  lemma MovesGoForward(cfg: Config, inp: Input, w: World, move: Move)
    requires Justified(cfg, inp, w, move) && !move.Settle? && !move.Skip?
    ensures GoesForward(ProgramOf(move))
  {
    if move.AdvanceTo? {
      assert GoesForward(Then(move.counter, Halt));
    } else if move.RollBack? {
      assert GoesForward(Then(ScaleToZero, Then(SyncStatus(Failed), Halt)));
    }
  }

  lemma SkipGoesForward(rest: Move)
    requires GoesForward(ProgramOf(rest))
    ensures GoesForward(ProgramOf(Skip(rest)))
  {
    var r := ProgramOf(rest);
    var end := Do(SetStatusPhase(Succeeded), Halt, r);
    assert GoesForward(end);
    assert GoesForward(Do(ScaleToZero, end, r));
    assert GoesForward(Do(Promote, Do(ScaleToZero, end, r), r));
    assert GoesForward(Do(CopyConfigs, Do(Promote, Do(ScaleToZero, end, r), r), r));
  }

  lemma SetUpMeets(cfg: Config, inp: Input, w0: World, w: World, move: Move)
    requires SetUp(w0) && SetUp(w) && SameRollout(w0, w) && Justified(cfg, inp, w0, move)
    requires w.primary.Some?
    ensures Meets(SetUpLaw(), AnyFault, cfg, ProgramOf(move), w)
  {
    var k := SetUpLaw();
    if IsSetUp(w.status.phase) {
      if move.Skip? {
        MovesGoForward(cfg, inp, w0, move.otherwise);
        SkipGoesForward(move.otherwise);
      } else {
        MovesGoForward(cfg, inp, w0, move);
      }
      ForwardMeets(cfg, ProgramOf(move), w);
    } else if move.AwaitRollout? {
      MeetsOne(k, AnyFault, cfg, SetStatusPhase(Waiting), w);
    } else if move.Settle? {
      MeetsOne(k, AnyFault, cfg, SyncStatus(Initialized), w);
    } else if move.Start? {
      MeetsTwo(k, AnyFault, cfg, ScaleFromZero, SyncStatus(Progressing), w);
    } else {
      assert move.Rest?;
    }
  }

  /** No edit changes the target between the creation of the primary and the end of the
      set-up. */
  ghost predicate EditsAwaitSetUp(cfg: Config, es: seq<Event>, w: World) {
    es != [] ==>
      var init, e := es[..|es| - 1], es[|es| - 1];
      var before := Run(cfg, init, w);
      && EditsAwaitSetUp(cfg, init, w)
      && (e.Edit? && IsNew(before.status.phase) && before.primary.Some? ==> e.target == before.target)
  }

  lemma SetUpTick(cfg: Config, inp: Input, faults: seq<Outcome>, w: World)
    requires SetUp(w)
    ensures forall v <- Visited(cfg, TickProgram(cfg, inp, w), faults, w) :: SetUp(v)
  {
    var k, p := SetUpLaw(), TickProgram(cfg, inp, w);
    TickMoveIsJustified(cfg, inp, w);
    forall v | Ends(k, v) && SameRollout(w, v) && v.primary.Some?
      ensures Meets(k, AnyFault, cfg, ProgramOf(TickMove(cfg, inp, w)), v)
    {
      SetUpMeets(cfg, inp, w, v, TickMove(cfg, inp, w));
    }
    TickByMoves(k, AnyFault, cfg, inp, w);
    AnyFaultIsWithin(p, faults);
    MeetsIsSound(k, AnyFault, cfg, p, faults, w);
  }

  /** Main result for phase Initialized: whatever fails, it is only ever seen with the recorded
      revision in the primary, unless the target is edited while the primary starts up. */
  lemma {:induction false} InitializedIsFaithful(cfg: Config, es: seq<Event>, w: World)
    requires Fresh(w) && EditsAwaitSetUp(cfg, es, w)
    ensures forall v | Occurs(cfg, es, w, v) :: SetUp(v)
    ensures SetUp(Run(cfg, es, w))
  {
    if es != [] {
      var init, e := es[..|es| - 1], es[|es| - 1];
      InitializedIsFaithful(cfg, init, w);
      if e.Advance? {
        var before := Run(cfg, init, w);
        SetUpTick(cfg, e.inp, e.faults, before);
        LastIsVisited(cfg, TickProgram(cfg, e.inp, before), e.faults, before);
      }
    }
  }

  /** Why the edit has to wait: made while the primary starts up, it is recorded as applied,
      but the primary keeps the revision it was created from. */
  lemma EditDuringStartupIsForgotten()
    ensures var es := [Advance(STARTING, []), Edit(V2), TICK];
            var v := Run(PLAIN, es, NEW_CANARY);
            && v.status.phase == Initialized && !ShouldAdvance(CALM, v)
            && v.target == V2 && v.primary == Some(V1)
  {
    var es := [Advance(STARTING, []), Edit(V2), TICK];
    var w1 := Step(PLAIN, Advance(STARTING, []), NEW_CANARY);
    InitialTickWithoutPrimary(NEW_CANARY);
    var w2 := w1.(target := V2);
    var w3 := Step(PLAIN, TICK, w2);
    SettlingTick(w2);
    TraceIsRun(PLAIN, es, [NEW_CANARY, w1, w2, w3]);
  }
}
