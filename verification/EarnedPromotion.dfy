// A revision reaches the primary only after the checks it was configured with.

module EarnedPromotion {
  import opened Options
  import opened CanaryStatus
  import opened Analysis
  import opened Cluster
  import opened Tick
  import opened Moves

  /** Every call written in a program, on any branch. */
  function CallsIn(p: Program): set<Call> {
    match p
    case Halt => {}
    case Do(call, ok, err) => {call} + CallsIn(ok) + CallsIn(err)
  }

  lemma {:induction false} AttemptedAreWritten(p: Program, faults: seq<Outcome>)
    ensures forall c <- Attempted(p, faults) :: c in CallsIn(p)
  {
    if p.Do? {
      AttemptedAreWritten(Branch(p, Head(faults)), Tail(faults));
    }
  }

  lemma CallsOfTwo(c: Call, d: Call)
    ensures CallsIn(Do(c, Do(d, Halt, Halt), Halt)) == {c, d}
    ensures CallsIn(Do(c, Do(d, Halt, Halt), Do(d, Halt, Halt))) == {c, d}
  {
    assert CallsIn(Do(d, Halt, Halt)) == {d};
  }

  /** Which calls of a move count iterations or promote. */
  lemma CallsOfMove(move: Move, c: Call)
    requires !move.Skip? && c in CallsIn(ProgramOf(move))
    requires move.AdvanceTo? ==>
               move.counter.SetStatusIterations? || move.counter.SetStatusWeight? || move.counter.SetStatusPhase?
    ensures c == Promote || c == CopyConfigs ==> move == PromoteCanary
    ensures c.SetStatusIterations? ==>
              || (move == Count(c.iterations)) || (move == MirrorAndCount(c.iterations))
              || (move.AdvanceTo? && move.counter == c)
    ensures c == SetRoutes(ALL_TO_CANARY) ==> move.AdvanceTo? && move.routes == ALL_TO_CANARY
    ensures c.SetRoutes? && c.routes.canary > 0 ==> move.AdvanceTo? && move.routes == c.routes
  {
    match move {
      case Wake => CallsOfTwo(SetStatusPhase(Progressing), ScaleFromZero);
      case Start => CallsOfTwo(ScaleFromZero, SyncStatus(Progressing));
      case Restart => CallsOfTwo(SetRoutes(ALL_TO_PRIMARY), SyncStatus(Progressing));
      case RollBack => CallsOfTwo(ScaleToZero, SyncStatus(Failed));
      case AdvanceTo(r, counter) => CallsOfTwo(SetRoutes(r), counter);
      case MirrorAndCount(n) => CallsOfTwo(SetRoutes(Routes(TOTAL_WEIGHT, 0, true)), SetStatusIterations(n));
      case PromoteCanary =>
        CallsOfTwo(Promote, SetStatusPhase(Promoting));
        assert CallsIn(ProgramOf(move)) == {CopyConfigs, Promote, SetStatusPhase(Promoting)};
      case Finalise(_) => CallsOfTwo(SetRoutes(ALL_TO_PRIMARY), SetStatusPhase(Finalising));
      case Complete => CallsOfTwo(ScaleToZero, SetStatusPhase(Succeeded));
      case _ =>
    }
  }

  /** A tick makes the calls of its move, and before them at most those that prepare a new
      canary. */
  lemma CallsOfTick(cfg: Config, inp: Input, faults: seq<Outcome>, w: World, c: Call)
    requires c in Attempted(TickProgram(cfg, inp, w), faults)
    ensures c in {CreatePrimary, ScaleToZero} || c in CallsIn(ProgramOf(TickMove(cfg, inp, w)))
  {
    var p, next := TickProgram(cfg, inp, w), ProgramOf(TickMove(cfg, inp, w));
    AttemptedAreWritten(p, faults);
    if p != Halt {
      var park := if w.primary.None? then p.ok else p;
      assert CallsIn(park) <= {ScaleToZero} + CallsIn(next);
      assert CallsIn(p) <= {CreatePrimary} + CallsIn(park);
    }
  }

  /** Main result: a tick that copies configs or the template into the primary is one in which
      all confirm-promotion hooks approved, the metrics passed and all rollout hooks approved,
      with the target unchanged since it was recorded. The one way around the analysis is a
      non-positive maximum weight. */
  lemma PromotionIsEarned(cfg: Config, inp: Input, faults: seq<Outcome>, w: World)
    requires !cfg.skipAnalysis
    requires Promote in Attempted(TickProgram(cfg, inp, w), faults) ||
             CopyConfigs in Attempted(TickProgram(cfg, inp, w), faults)
    ensures forall i: nat | i < |cfg.hooks| && cfg.hooks[i] == ConfirmPromotion :: i in inp.approving
    ensures || (inp.metricsPass && forall i: nat | i < |cfg.hooks| && cfg.hooks[i] == Rollout :: i in inp.approving)
            || (IsProgressive(cfg) && MaxWeight(cfg) <= 0 &&
                forall i: nat | i < |cfg.hooks| && cfg.hooks[i] == PreRollout :: i in inp.approving)
    ensures inp.targetReread ==>
              Some(w.target.template) in {w.status.lastAppliedSpec, w.status.lastPromotedSpec}
    ensures inp.configsReread ==> !ConfigsChanged(w)
    ensures w.status.phase == Progressing ==> w.status.failedChecks < Threshold(cfg)
  {
    var c := if Promote in Attempted(TickProgram(cfg, inp, w), faults) then Promote else CopyConfigs;
    CallsOfTick(cfg, inp, faults, w, c);
    TickMoveIsJustified(cfg, inp, w);
    CallsOfMove(TickMove(cfg, inp, w), c);
  }

  /** At the very start of a progressive rollout, promotion is due exactly when the maximum
      weight is not positive although the first step is. */
  lemma UnearnedExactly(cfg: Config, w: World)
    requires IsProgressive(cfg) && AnalysisNotStarted(cfg, w)
    ensures PromotionDue(cfg, w) <==> MaxWeight(cfg) <= 0 < NextStepWeight(cfg, 0)
  {
  }

  /** Such a step list exists: 50, then 0. */
  lemma UnearnedExists(cfg: Config)
    requires cfg.stepWeight <= 0 && cfg.stepWeights == [50, 0]
    ensures MaxWeight(cfg) <= 0 < NextStepWeight(cfg, 0)
  {
  }

  // ---------------------------------------------------------------------------
  // Counting iterations
  // ---------------------------------------------------------------------------

  /** The tick's checks pass and its strategy counts an iteration. */
  ghost predicate Counts(cfg: Config, inp: Input, w: World) {
    var move := TickMove(cfg, inp, w);
    && inp.bootstrapped && Passing(cfg, inp, w) && Judged(cfg, inp, w)
    && (move.Count? || move.MirrorAndCount? || (move.AdvanceTo? && move.counter.SetStatusIterations?))
  }

  /** The counting ticks since the iteration counter was last at zero. */
  ghost function PassesSinceZero(cfg: Config, es: seq<Event>, w: World): nat {
    if es == [] then 0
    else
      var init, e := es[..|es| - 1], es[|es| - 1];
      var before, after := Run(cfg, init, w), Run(cfg, es, w);
      if after.status.iterations == 0 then 0
      else if e.Advance? && Counts(cfg, e.inp, before) then PassesSinceZero(cfg, init, w) + 1
      else PassesSinceZero(cfg, init, w)
  }

  /** If the only counter write is n + 1, the counter ends at 0, where it was, or at n + 1. */
  lemma {:induction false} CounterMoves(cfg: Config, p: Program, faults: seq<Outcome>, w: World, n: int)
    requires forall c <- Attempted(p, faults) :: c.SetStatusIterations? ==> c.iterations == n + 1
    ensures var m := Exec(cfg, p, faults, w).status.iterations;
            || m == 0 || m == w.status.iterations
            || (m == n + 1 && exists c <- Attempted(p, faults) :: c.SetStatusIterations?)
  {
    if p.Do? {
      var o := Head(faults);
      assert p.call in Attempted(p, faults);
      assert forall c <- Attempted(Branch(p, o), Tail(faults)) :: c in Attempted(p, faults);
      CounterMoves(cfg, Branch(p, o), Tail(faults), Effect(cfg, p.call, o, w), n);
    }
  }

  /** One tick resets the counter, keeps it, or advances it by one when its checks pass. */
  lemma TickCounts(cfg: Config, inp: Input, faults: seq<Outcome>, w: World)
    requires !cfg.skipAnalysis
    ensures var m := Exec(cfg, TickProgram(cfg, inp, w), faults, w).status.iterations;
            var n := w.status.iterations;
            || m == 0 || m == n
            || (m == n + 1 && Counts(cfg, inp, w) && n <= Iterations(cfg) && (IsABTest(cfg) ==> n < Iterations(cfg)))
  {
    var p, move, n := TickProgram(cfg, inp, w), TickMove(cfg, inp, w), w.status.iterations;
    TickMoveIsJustified(cfg, inp, w);
    forall c <- Attempted(p, faults) | c.SetStatusIterations?
      ensures c.iterations == n + 1 && Counts(cfg, inp, w)
      ensures n <= Iterations(cfg) && (IsABTest(cfg) ==> n < Iterations(cfg))
    {
      CallsOfTick(cfg, inp, faults, w, c);
      CallsOfMove(move, c);
      assert move.AdvanceTo? ==> w.status.phase != Promoting;
    }
    CounterMoves(cfg, p, faults, w, n);
  }

  /** In every run the counter is backed by that many passing ticks, and never exceeds the
      configured iterations by more than the one that records the switch. */
  lemma {:induction false} IterationsAreBacked(cfg: Config, es: seq<Event>, w: World)
    requires !cfg.skipAnalysis && Iterations(cfg) > 0 && Fresh(w)
    ensures var n := Run(cfg, es, w).status.iterations;
            && 0 <= n <= PassesSinceZero(cfg, es, w)
            && n <= (if IsABTest(cfg) then Iterations(cfg) else Iterations(cfg) + 1)
  {
    if es != [] {
      var init, e := es[..|es| - 1], es[|es| - 1];
      IterationsAreBacked(cfg, init, w);
      if e.Advance? {
        TickCounts(cfg, e.inp, e.faults, Run(cfg, init, w));
      }
    }
  }

  /** Main result for Blue/Green: traffic is switched to the canary only in a passing tick
      behind the promotion gate, after that many passing ticks; Promote needs one more. */
  lemma SwitchComesAfterTheTests(cfg: Config, es: seq<Event>, w: World, inp: Input, faults: seq<Outcome>)
    requires !cfg.skipAnalysis && IsBlueGreen(cfg) && Fresh(w)
    ensures var v := Run(cfg, es, w);
            var calls := Attempted(TickProgram(cfg, inp, v), faults);
            && (forall c <- calls :: c.SetRoutes? && c.routes.canary > 0 && v.status.phase != Promoting ==>
                  && c.routes == ALL_TO_CANARY
                  && PassesSinceZero(cfg, es, w) >= Iterations(cfg)
                  && Counts(cfg, inp, v)
                  && forall i: nat | i < |cfg.hooks| && cfg.hooks[i] == ConfirmPromotion :: i in inp.approving)
            && (Promote in calls ==>
                  && PassesSinceZero(cfg, es, w) > Iterations(cfg) && inp.metricsPass
                  && forall i: nat | i < |cfg.hooks| && cfg.hooks[i] == Rollout :: i in inp.approving)
  {
    var v := Run(cfg, es, w);
    IterationsAreBacked(cfg, es, w);
    TickMoveIsJustified(cfg, inp, v);
    var calls := Attempted(TickProgram(cfg, inp, v), faults);
    forall c <- calls | c.SetRoutes? && c.routes.canary > 0 && v.status.phase != Promoting
      ensures c.routes == ALL_TO_CANARY && PassesSinceZero(cfg, es, w) >= Iterations(cfg)
      ensures Counts(cfg, inp, v) && AllApprove(cfg, inp, ConfirmPromotion)
    {
      CallsOfTick(cfg, inp, faults, v, c);
      CallsOfMove(TickMove(cfg, inp, v), c);
    }
    if Promote in calls {
      PromotionIsEarned(cfg, inp, faults, v);
      CallsOfTick(cfg, inp, faults, v, Promote);
      CallsOfMove(TickMove(cfg, inp, v), Promote);
    }
  }
}
