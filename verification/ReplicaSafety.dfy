// The canary never receives traffic while it is scaled down.

module ReplicaSafety {
  import opened Options
  import opened CanaryStatus
  import opened Analysis
  import opened Cluster
  import opened Tick
  import opened Moves
  import opened RouteSafety
  import opened Scenarios

  /** Weight on the canary only if it has pods. */
  ghost predicate Fed(w: World) {
    w.routes.canary > 0 ==> w.replicas > 0
  }

  /** Between ticks, a canary under analysis or promotion has pods. */
  ghost predicate Staffed(w: World) {
    Analysing(w.status.phase) || w.status.phase.Promoting? ==> w.replicas > 0
  }

  ghost function ScaleLaw(): Contract {
    Contract((w: World) => Fed(w), (c: Call) => true, (w: World) => Staffed(w))
  }

  /** Of half-done scaling nothing may happen; with skipAnalysis, where the strategy goes on
      after the canary has been scaled down, neither may a Succeeded write that is not done. */
  ghost predicate Scales(cfg: Config, m: FaultModel) {
    m == NoHalfSkipping || (m == NoHalfScaling && !cfg.skipAnalysis)
  }

  lemma ScaleRollBack(cfg: Config, m: FaultModel, w: World)
    requires Scales(cfg, m) && Ends(ScaleLaw(), w) && Inv(cfg, w)
    ensures Meets(ScaleLaw(), m, cfg, ProgramOf(RollBack), w)
  {
    var w1 := Apply(cfg, SetRoutes(ALL_TO_PRIMARY), w);
    MeetsTwo(ScaleLaw(), m, cfg, ScaleToZero, SyncStatus(Failed), w1);
    MeetsThen(ScaleLaw(), m, cfg, SetRoutes(ALL_TO_PRIMARY), ProgramOf(RollBack).ok, w);
  }

  lemma ScaleOpening(cfg: Config, m: FaultModel, inp: Input, w0: World, w: World, move: Move)
    requires Scales(cfg, m) && Inv(cfg, w) && w.status == w0.status && Ends(ScaleLaw(), w)
    requires Opens(move) && Justified(cfg, inp, w0, move)
    ensures Meets(ScaleLaw(), m, cfg, ProgramOf(move), w)
  {
    match move {
      case AwaitRollout => MeetsOne(ScaleLaw(), m, cfg, SetStatusPhase(Waiting), w);
      case Wake => MeetsTwo(ScaleLaw(), m, cfg, SetStatusPhase(Progressing), ScaleFromZero, w);
      case Settle => MeetsOne(ScaleLaw(), m, cfg, SyncStatus(Initialized), w);
      case Start => MeetsTwo(ScaleLaw(), m, cfg, ScaleFromZero, SyncStatus(Progressing), w);
      case Restart => MeetsTwo(ScaleLaw(), m, cfg, SetRoutes(ALL_TO_PRIMARY), SyncStatus(Progressing), w);
    }
  }

  lemma ScaleBooking(cfg: Config, m: FaultModel, w: World, move: Move)
    requires Ends(ScaleLaw(), w) && Books(move) && w.replicas > 0
    ensures Meets(ScaleLaw(), m, cfg, ProgramOf(move), w)
  {
    match move {
      case CountFailure(n) => MeetsOne(ScaleLaw(), m, cfg, SetStatusFailedChecks(n), w);
      case Count(n) => MeetsOne(ScaleLaw(), m, cfg, SetStatusIterations(n), w);
      case AwaitPromotion => MeetsOne(ScaleLaw(), m, cfg, SetStatusPhase(WaitingPromotion), w);
    }
  }

  lemma ScaleAdvance(cfg: Config, m: FaultModel, w: World, r: Routes, counter: Call)
    requires Ends(ScaleLaw(), w) && w.replicas > 0
    requires counter.SetStatusIterations? || counter.SetStatusWeight? || counter.SetStatusPhase?
    ensures Meets(ScaleLaw(), m, cfg, ProgramOf(AdvanceTo(r, counter)), w)
  {
    MeetsTwo(ScaleLaw(), m, cfg, SetRoutes(r), counter, w);
  }

  lemma ScaleMirroring(cfg: Config, m: FaultModel, w: World, n: int)
    requires Ends(ScaleLaw(), w)
    ensures Meets(ScaleLaw(), m, cfg, ProgramOf(MirrorAndCount(n)), w)
  {
    MeetsBoth(ScaleLaw(), m, cfg, SetRoutes(Routes(TOTAL_WEIGHT, 0, true)), SetStatusIterations(n), w);
  }

  lemma ScaleFinalising(cfg: Config, m: FaultModel, w: World, routed: bool)
    requires Ends(ScaleLaw(), w)
    ensures Meets(ScaleLaw(), m, cfg, ProgramOf(Finalise(routed)), w)
  {
    if routed {
      MeetsTwo(ScaleLaw(), m, cfg, SetRoutes(ALL_TO_PRIMARY), SetStatusPhase(Finalising), w);
    } else {
      MeetsOne(ScaleLaw(), m, cfg, SetStatusPhase(Finalising), w);
    }
  }

  lemma ScaleCompletion(cfg: Config, m: FaultModel, w: World)
    requires Ends(ScaleLaw(), w) && w.routes == ALL_TO_PRIMARY && w.status.phase == Finalising
    ensures Meets(ScaleLaw(), m, cfg, ProgramOf(Complete), w)
  {
    MeetsTwo(ScaleLaw(), m, cfg, ScaleToZero, SetStatusPhase(Succeeded), w);
  }

  lemma ScaleClosing(cfg: Config, m: FaultModel, inp: Input, w0: World, w: World, move: Move)
    requires Scales(cfg, m) && Inv(cfg, w) && w.status == w0.status && Ends(ScaleLaw(), w)
    requires Closes(move) && Justified(cfg, inp, w0, move)
    ensures Meets(ScaleLaw(), m, cfg, ProgramOf(move), w)
  {
    match move {
      case RollBack => ScaleRollBack(cfg, m, w);
      case PromoteCanary => PromotionMeets(ScaleLaw(), m, cfg, w);
      case Finalise(routed) => ScaleFinalising(cfg, m, w, routed);
      case Complete => ScaleCompletion(cfg, m, w);
    }
  }

  lemma ScalePlainMove(cfg: Config, m: FaultModel, inp: Input, w0: World, w: World, move: Move)
    requires Scales(cfg, m) && Inv(cfg, w) && w.status == w0.status && Ends(ScaleLaw(), w)
    requires Justified(cfg, inp, w0, move) && !move.Skip?
    ensures Meets(ScaleLaw(), m, cfg, ProgramOf(move), w)
  {
    if Opens(move) {
      ScaleOpening(cfg, m, inp, w0, w, move);
    } else if Books(move) {
      ScaleBooking(cfg, m, w, move);
    } else if move.MirrorAndCount? {
      ScaleMirroring(cfg, m, w, move.iterations);
    } else if move.AdvanceTo? {
      ScaleAdvance(cfg, m, w, move.routes, move.counter);
    } else if Closes(move) {
      ScaleClosing(cfg, m, inp, w0, w, move);
    }
  }

  /** The last two calls of skipAnalysis: after the canary has been scaled down, the program to
      fall back on is not reached. */
  lemma ScaleSkipEnd(cfg: Config, m: FaultModel, w: World, r: Program)
    requires w.routes == ALL_TO_PRIMARY && Meets(ScaleLaw(), m, cfg, r, w)
    requires !Allows(m, ScaleToZero, Lost)
    requires !Allows(m, SetStatusPhase(Succeeded), Refused) && !Allows(m, SetStatusPhase(Succeeded), Lost)
    ensures Meets(ScaleLaw(), m, cfg, Do(ScaleToZero, Do(SetStatusPhase(Succeeded), Halt, r), r), w)
  {
    var k, end, down := ScaleLaw(), Do(SetStatusPhase(Succeeded), Halt, r), Apply(cfg, ScaleToZero, w);
    assert k.always(down) && k.always(w);
    assert Ends(k, Apply(cfg, SetStatusPhase(Succeeded), down));
    MeetsElse(k, m, cfg, SetStatusPhase(Succeeded), Halt, r, down);
    MeetsElse(k, m, cfg, ScaleToZero, end, r, w);
  }

  /** The strategy may be fallen back on as long as the canary has not been scaled down. */
  lemma ScaleSkipCalls(cfg: Config, m: FaultModel, w: World, r: Program)
    requires Inv(cfg, w) && !Allows(m, ScaleToZero, Lost)
    requires !Allows(m, SetStatusPhase(Succeeded), Refused) && !Allows(m, SetStatusPhase(Succeeded), Lost)
    requires forall i: nat | i < 4 ::
               Ends(ScaleLaw(), SkipWorlds(cfg, w)[i]) && Meets(ScaleLaw(), m, cfg, r, SkipWorlds(cfg, w)[i])
    ensures Meets(ScaleLaw(), m, cfg, SkipProgram(r), w)
  {
    var k, ws := ScaleLaw(), SkipWorlds(cfg, w);
    SkipKeepsInv(cfg, w);
    assert ws[0] == w && ws[1] == Apply(cfg, SetRoutes(ALL_TO_PRIMARY), w);
    assert ws[2] == Apply(cfg, CopyConfigs, ws[1]) && ws[3] == Apply(cfg, Promote, ws[2]);
    var last := Do(ScaleToZero, Do(SetStatusPhase(Succeeded), Halt, r), r);
    ScaleSkipEnd(cfg, m, ws[3], r);
    MeetsElse(k, m, cfg, Promote, last, r, ws[2]);
    MeetsElse(k, m, cfg, CopyConfigs, Do(Promote, last, r), r, ws[1]);
    MeetsElse(k, m, cfg, SetRoutes(ALL_TO_PRIMARY), Do(CopyConfigs, Do(Promote, last, r), r), r, w);
  }

  lemma SkipKeepsStaff(cfg: Config, w: World)
    requires Ends(ScaleLaw(), w) && Inv(cfg, w)
    ensures forall i: nat | i < 4 :: Ends(ScaleLaw(), SkipWorlds(cfg, w)[i])
  {
  }

  lemma ScaleMove(cfg: Config, m: FaultModel, inp: Input, w0: World, w: World, move: Move)
    requires Scales(cfg, m) && Inv(cfg, w) && w.status == w0.status && Ends(ScaleLaw(), w)
    requires Justified(cfg, inp, w0, move)
    ensures Meets(ScaleLaw(), m, cfg, ProgramOf(move), w)
  {
    if move.Skip? {
      SkipKeepsInv(cfg, w);
      SkipKeepsStaff(cfg, w);
      forall i: nat | i < 4
        ensures Meets(ScaleLaw(), m, cfg, ProgramOf(move.otherwise), SkipWorlds(cfg, w)[i])
      {
        ScalePlainMove(cfg, m, inp, w0, SkipWorlds(cfg, w)[i], move.otherwise);
      }
      ScaleSkipCalls(cfg, m, w, ProgramOf(move.otherwise));
    } else {
      ScalePlainMove(cfg, m, inp, w0, w, move);
    }
  }

  lemma ScaleTick(cfg: Config, m: FaultModel, inp: Input, w: World)
    requires Scales(cfg, m) && Inv(cfg, w) && Ends(ScaleLaw(), w)
    ensures Meets(ScaleLaw(), m, cfg, TickProgram(cfg, inp, w), w)
  {
    TickMoveIsJustified(cfg, inp, w);
    forall v | Ends(ScaleLaw(), v) && SameRollout(w, v) && v.primary.Some?
      ensures Meets(ScaleLaw(), m, cfg, ProgramOf(TickMove(cfg, inp, w)), v)
    {
      ScaleMove(cfg, m, inp, w, v, TickMove(cfg, inp, w));
    }
    TickByMoves(ScaleLaw(), m, cfg, inp, w);
  }

  /** Main result: the canary has pods whenever the router sends it traffic, in every world
      of every run. Most calls may fail; only the failures of TearsScaling are excluded, and
      with skipAnalysis those of the Succeeded write. */
  lemma {:induction false} CanaryIsFed(cfg: Config, m: FaultModel, es: seq<Event>, w: World)
    requires SoundSteps(cfg) && Scales(cfg, m) && Fresh(w) && RunWithin(m, cfg, es, w)
    ensures forall v | Occurs(cfg, es, w, v) :: Fed(v)
    ensures Staffed(Run(cfg, es, w)) && Fed(Run(cfg, es, w))
  {
    if es != [] {
      var init, e := es[..|es| - 1], es[|es| - 1];
      CanaryIsFed(cfg, m, init, w);
      RunKeepsInv(cfg, m, init, w);
      if e.Advance? {
        var before := Run(cfg, init, w);
        ScaleTick(cfg, m, e.inp, before);
        MeetsIsSound(ScaleLaw(), m, cfg, TickProgram(cfg, e.inp, before), e.faults, before);
        assert Fed(Run(cfg, es, w)) by { LastIsVisited(cfg, TickProgram(cfg, e.inp, before), e.faults, before); }
      }
    }
  }

  // ---------------------------------------------------------------------------
  // The failures that must not happen
  // ---------------------------------------------------------------------------

  lemma WithinOne(m: FaultModel, c: Call, faults: seq<Outcome>)
    ensures Within(m, Do(c, Halt, Halt), faults) <==> Allows(m, c, Head(faults))
  {
  }

  lemma WithinTwo(m: FaultModel, c: Call, next: Program, faults: seq<Outcome>)
    ensures Within(m, Then(c, next), faults) <==>
            Allows(m, c, Head(faults)) && (Head(faults).Done? ==> Within(m, next, Tail(faults)))
  {
  }

  /** In these two places the excluded failures are exactly the harmful ones (a scale-up refused
      at the start of a rollout is excluded as well, and harmless). Waking a canary at zero
      replicas leaves it under analysis without pods iff one of them occurs ... */
  lemma WakeTearsExactly(cfg: Config, w: World, faults: seq<Outcome>)
    requires w.status.phase == Waiting && w.replicas == 0
    ensures Staffed(Exec(cfg, ProgramOf(Wake), faults, w)) <==> Within(NoHalfScaling, ProgramOf(Wake), faults)
  {
    var p := ProgramOf(Wake);
    ExecOne(cfg, p, faults, w);
    WithinTwo(NoHalfScaling, SetStatusPhase(Progressing), p.ok, faults);
    if Head(faults).Done? {
      ExecOne(cfg, p.ok, Tail(faults), Apply(cfg, p.call, w));
      WithinOne(NoHalfScaling, ScaleFromZero, Tail(faults));
    }
  }

  /** ... and so does rolling one back. */
  lemma RollBackTearsExactly(cfg: Config, w: World, faults: seq<Outcome>)
    requires Analysing(w.status.phase) && w.replicas > 0
    ensures Staffed(Exec(cfg, ProgramOf(RollBack), faults, w)) <==>
            Within(NoHalfScaling, ProgramOf(RollBack), faults)
  {
    var p, w1 := ProgramOf(RollBack), Apply(cfg, SetRoutes(ALL_TO_PRIMARY), w);
    ExecOne(cfg, p, faults, w);
    WithinTwo(NoHalfScaling, SetRoutes(ALL_TO_PRIMARY), p.ok, faults);
    if Head(faults).Done? {
      var rest := Tail(faults);
      ExecOne(cfg, p.ok, rest, w1);
      WithinTwo(NoHalfScaling, ScaleToZero, p.ok.ok, rest);
      if Head(rest).Done? {
        ExecOne(cfg, p.ok.ok, Tail(rest), Apply(cfg, ScaleToZero, w1));
        WithinOne(NoHalfScaling, SyncStatus(Failed), Tail(rest));
      }
    }
  }

  /** Giving traffic to the canary in a tick of skipAnalysis starves it exactly in these
      failures: scaling down takes effect, and either it is reported as failed, or the write of
      phase Succeeded is; and the traffic change of the strategy that follows takes effect. */
  lemma SkipStarvesExactly(cfg: Config, w: World, r: Routes, counter: Call, faults: seq<Outcome>)
    requires !cfg.provider.Kubernetes? && w.replicas > 0 && r.canary > 0
    requires counter.SetStatusWeight? || counter.SetStatusIterations?
    ensures !Fed(Exec(cfg, ProgramOf(Skip(AdvanceTo(r, counter))), faults, w)) <==> Starves(faults)
  {
    var p := ProgramOf(Skip(AdvanceTo(r, counter)));
    var w1 := Effect(cfg, SetRoutes(ALL_TO_PRIMARY), Head(faults), w);
    ExecOne(cfg, p, faults, w);
    if !Head(faults).Done? {
      AdvanceKeepsPods(cfg, r, counter, Tail(faults), w1);
    } else {
      SkipStarvesFrom(cfg, w1, r, counter, Tail(faults));
    }
  }

  predicate Starves(faults: seq<Outcome>) {
    Head(faults).Done? && StarvesAfterRouting(Tail(faults))
  }

  /** The same for the outcomes of the calls after the first. */
  predicate StarvesAfterRouting(faults: seq<Outcome>) {
    && Head(faults).Done? && Head(Tail(faults)).Done?
    && StarvesAfterPromotion(Tail(Tail(faults)))
  }

  /** The same for the outcomes from scaling down on. */
  predicate StarvesAfterPromotion(faults: seq<Outcome>) {
    || (Head(faults).Lost? && !Head(Tail(faults)).Refused?)
    || (Head(faults).Done? && !Head(Tail(faults)).Done? && !Head(Tail(Tail(faults))).Refused?)
  }

  /** An advance changes no pods, and the routes unless its first call is refused. */
  lemma AdvanceKeepsPods(cfg: Config, r: Routes, counter: Call, faults: seq<Outcome>, w: World)
    requires !cfg.provider.Kubernetes? && (counter.SetStatusWeight? || counter.SetStatusIterations?)
    ensures var v := Exec(cfg, ProgramOf(AdvanceTo(r, counter)), faults, w);
            && v.replicas == w.replicas
            && v.routes.canary == if Head(faults).Refused? then w.routes.canary else r.canary
  {
    var p := ProgramOf(AdvanceTo(r, counter));
    ExecOne(cfg, p, faults, w);
    if Head(faults).Done? {
      ExecOne(cfg, p.ok, Tail(faults), Apply(cfg, SetRoutes(r), w));
    }
  }

  lemma SkipStarvesFrom(cfg: Config, w: World, r: Routes, counter: Call, faults: seq<Outcome>)
    requires !cfg.provider.Kubernetes? && w.replicas > 0 && r.canary > 0 && w.routes.canary == 0
    requires counter.SetStatusWeight? || counter.SetStatusIterations?
    ensures !Fed(Exec(cfg, ProgramOf(Skip(AdvanceTo(r, counter))).ok, faults, w)) <==> StarvesAfterRouting(faults)
  {
    var p := ProgramOf(Skip(AdvanceTo(r, counter))).ok;
    var w1 := Effect(cfg, CopyConfigs, Head(faults), w);
    ExecOne(cfg, p, faults, w);
    if !Head(faults).Done? {
      AdvanceKeepsPods(cfg, r, counter, Tail(faults), w1);
    } else {
      var w2 := Effect(cfg, Promote, Head(Tail(faults)), w1);
      ExecOne(cfg, p.ok, Tail(faults), w1);
      if !Head(Tail(faults)).Done? {
        AdvanceKeepsPods(cfg, r, counter, Tail(Tail(faults)), w2);
      } else {
        SkipStarvesAtLast(cfg, w2, r, counter, Tail(Tail(faults)));
      }
    }
  }

  lemma SkipStarvesAtLast(cfg: Config, w: World, r: Routes, counter: Call, faults: seq<Outcome>)
    requires !cfg.provider.Kubernetes? && w.replicas > 0 && r.canary > 0 && w.routes.canary == 0
    requires counter.SetStatusWeight? || counter.SetStatusIterations?
    ensures !Fed(Exec(cfg, ProgramOf(Skip(AdvanceTo(r, counter))).ok.ok.ok, faults, w)) <==>
            StarvesAfterPromotion(faults)
  {
    var p := ProgramOf(Skip(AdvanceTo(r, counter))).ok.ok.ok;
    var w1 := Effect(cfg, ScaleToZero, Head(faults), w);
    ExecOne(cfg, p, faults, w);
    if !Head(faults).Done? {
      AdvanceKeepsPods(cfg, r, counter, Tail(faults), w1);
    } else {
      var w2 := Effect(cfg, SetStatusPhase(Succeeded), Head(Tail(faults)), w1);
      ExecOne(cfg, p.ok, Tail(faults), w1);
      if !Head(Tail(faults)).Done? {
        AdvanceKeepsPods(cfg, r, counter, Tail(Tail(faults)), w2);
      }
    }
  }

  /** With skipAnalysis a refused Succeeded write is enough: the canary has just been scaled
      down, and the strategy gives it its first weight. */
  lemma RefusedSuccessStarvesCanary()
    ensures Fresh(NEW_CANARY) && SoundSteps(SKIPPING)
    ensures var v := Run(SKIPPING, FailedSkipRun(Refused), NEW_CANARY);
            v.status.phase == Progressing && v.routes == Routes(90, 10, false) && v.replicas == 0 && !Fed(v)
  {
    FailedSkipRunEnds(Refused);
  }

  const RETREATING := Config(Mesh(false), false, 1, 0, false, 50, 10, [], 0, false, [Rollback])

  const ROLLBACK_ASKED := CALM.(approving := {0})

  /** The first two calls of a rollback, of which the third is refused. */
  lemma TornRollBack(w: World)
    requires w.status.phase == Progressing && w.primary.Some? && w.target == V2 && w.routes == ALL_TO_PRIMARY
    requires w.status.lastAppliedSpec == Some("v2") && w.status.trackedConfigs == Some(map[])
    ensures Exec(RETREATING, TickProgram(RETREATING, ROLLBACK_ASKED, w), [Done, Done, Refused], w) == w.(replicas := 0)
  {
    var cfg, p, faults := RETREATING, ProgramOf(RollBack), [Done, Done, Refused];
    assert cfg.hooks[0] == Rollback && 0 in ROLLBACK_ASKED.approving;
    assert TickMove(cfg, ROLLBACK_ASKED, w) == RollBack;
    ExecOne(cfg, p, faults, w);
    ExecOne(cfg, p.ok, faults[1..], w);
    ExecOne(cfg, p.ok.ok, faults[2..], w.(replicas := 0));
  }

  lemma ResumedTick(w: World)
    requires w.status.phase == Progressing && w.status.failedChecks == w.status.iterations == 0
    requires w.status.lastAppliedSpec == Some("v2") && w.status.trackedConfigs == Some(map[])
    requires w.target == V2 && w.primary.Some? && w.routes == ALL_TO_PRIMARY
    ensures var v := Step(RETREATING, TICK, w); v.routes == Routes(90, 10, false) && v.replicas == w.replicas
  {
    assert RETREATING.hooks[0] == Rollback && 0 !in CALM.approving;
    assert TickMove(RETREATING, CALM, w) == AdvanceTo(Routes(90, 10, false), SetStatusWeight(10));
    TickOfTwo(RETREATING, CALM, w, SetRoutes(Routes(90, 10, false)), SetStatusWeight(10));
  }

  const TORN := Advance(ROLLBACK_ASKED, [Done, Done, Refused])

  lemma TornAndResumed(w: World)
    requires w.status.phase == Progressing && w.status.failedChecks == w.status.iterations == 0
    requires w.status.lastAppliedSpec == Some("v2") && w.status.trackedConfigs == Some(map[])
    requires w.target == V2 && w.primary.Some? && w.routes == ALL_TO_PRIMARY
    ensures var v := Step(RETREATING, TICK, Step(RETREATING, TORN, w));
            v.routes == Routes(90, 10, false) && v.replicas == 0
  {
    TornRollBack(w);
    ResumedTick(w.(replicas := 0));
  }

  /** A manual rollback scales down but fails to record phase Failed; once the rollback hook
      is quiet again the analysis resumes and sends traffic to no pods. */
  lemma UnrecordedRollbackStarvesCanary()
    ensures var v := Run(RETREATING, [TICK, Edit(V2), TICK, TORN, TICK], NEW_CANARY);
            v.routes == Routes(90, 10, false) && v.replicas == 0 && !Fed(v)
  {
    var cfg := RETREATING;
    var w1 := Step(cfg, TICK, NEW_CANARY);
    var w2 := w1.(target := V2);
    var w3 := Step(cfg, TICK, w2);
    Started(cfg);
    TornAndResumed(w3);
    var w4 := Step(cfg, TORN, w3);
    TraceIsRun(cfg, [TICK, Edit(V2), TICK, TORN, TICK], [NEW_CANARY, w1, w2, w3, w4, Step(cfg, TICK, w4)]);
  }
}
