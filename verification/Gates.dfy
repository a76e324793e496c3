// What a tick has to have measured, and whose approval it has to have, before it acts; and what
// it does when a measurement fails, a revision is new, or a rollback is asked for. All of it in
// terms of the webhooks' answers, the metrics and the reads themselves.

module Gates {
  import opened Options
  import opened CanaryStatus
  import opened Analysis
  import opened Cluster
  import opened Tick
  import opened Moves
  import opened Termination
  import opened EarnedPromotion
  import opened RouteSafety

  /** A call that gives the canary traffic, real or mirrored, counts an iteration, or promotes. */
  predicate Acts(c: Call) {
    || c.Promote? || c.CopyConfigs? || c.SetStatusIterations?
    || (c.SetRoutes? && (c.routes.canary > 0 || c.routes.mirrored))
  }

  /** The canary has been given something to measure: a weight, mirrored traffic, or a test run. */
  predicate Exposed(cfg: Config, w: World) {
    || w.status.iterations != 0
    || (!cfg.provider.Kubernetes? && (w.routes.canary != 0 || (cfg.mirror && w.routes.mirrored)))
  }

  predicate UnderAnalysis(w: World) {
    w.status.phase == Progressing || w.status.phase == WaitingPromotion
  }

  /** Failed checks after which a rollout is given up. */
  predicate OutOfPatience(cfg: Config, w: World) {
    w.status.failedChecks >= 1 && w.status.failedChecks >= cfg.threshold
  }

  /** The moves that act. */
  lemma ActingMoves(move: Move, c: Call)
    requires !move.Skip? && Acts(c) && c in CallsIn(ProgramOf(move))
    requires move.AdvanceTo? ==>
               move.counter.SetStatusIterations? || move.counter.SetStatusWeight? || move.counter.SetStatusPhase?
    ensures move.PromoteCanary? || move.Count? || move.MirrorAndCount? || move.AdvanceTo?
    ensures c.SetRoutes? ==> move.AdvanceTo? || move.MirrorAndCount?
  {
    match move {
      case Wake => CallsOfTwo(SetStatusPhase(Progressing), ScaleFromZero);
      case Start => CallsOfTwo(ScaleFromZero, SyncStatus(Progressing));
      case Restart => CallsOfTwo(SetRoutes(ALL_TO_PRIMARY), SyncStatus(Progressing));
      case RollBack => CallsOfTwo(ScaleToZero, SyncStatus(Failed));
      case PromoteCanary =>
        CallsOfTwo(Promote, SetStatusPhase(Promoting));
        assert CallsIn(ProgramOf(move)) == {CopyConfigs, Promote, SetStatusPhase(Promoting)};
      case Finalise(_) => CallsOfTwo(SetRoutes(ALL_TO_PRIMARY), SetStatusPhase(Finalising));
      case Complete => CallsOfTwo(ScaleToZero, SetStatusPhase(Succeeded));
      case _ =>
    }
  }

  lemma ActingTick(cfg: Config, inp: Input, faults: seq<Outcome>, w: World, c: Call)
    requires !cfg.skipAnalysis && Acts(c) && c in Attempted(TickProgram(cfg, inp, w), faults)
    ensures var move := TickMove(cfg, inp, w);
            && Justified(cfg, inp, w, move)
            && (move.PromoteCanary? || move.Count? || move.MirrorAndCount? || move.AdvanceTo?)
            && (c.SetRoutes? ==> move.AdvanceTo? || move.MirrorAndCount?)
  {
    CallsOfTick(cfg, inp, faults, w, c);
    TickMoveIsJustified(cfg, inp, w);
    ActingMoves(TickMove(cfg, inp, w), c);
  }

  /** Main result: once the canary is exposed, a tick acts only if the metrics pass and every
      rollout hook approves; before that, only if every pre-rollout hook approves. */
  lemma ActsOnlyIfMeasured(cfg: Config, inp: Input, faults: seq<Outcome>, w: World, c: Call)
    requires !cfg.skipAnalysis && UnderAnalysis(w)
    requires Acts(c) && c in Attempted(TickProgram(cfg, inp, w), faults)
    ensures Exposed(cfg, w) ==>
              inp.metricsPass && forall i: nat | i < |cfg.hooks| && cfg.hooks[i] == Rollout :: i in inp.approving
    ensures !Exposed(cfg, w) ==>
              forall i: nat | i < |cfg.hooks| && cfg.hooks[i] == PreRollout :: i in inp.approving
  {
    ActingTick(cfg, inp, faults, w, c);
  }

  /** Main result: a tick acts only with everything read and ready, past the confirm-rollout
      hooks, and below the threshold. */
  lemma ActsOnlyIfReady(cfg: Config, inp: Input, faults: seq<Outcome>, w: World, c: Call)
    requires !cfg.skipAnalysis && Acts(c) && c in Attempted(TickProgram(cfg, inp, w), faults)
    ensures inp.bootstrapped && inp.reconciled && inp.routesRead && inp.primaryReady && !inp.readiness.NotYet?
    ensures w.status.phase == Progressing || w.status.phase == WaitingPromotion || w.status.phase == Promoting
    ensures forall i: nat | i < |cfg.hooks| && cfg.hooks[i] == ConfirmRollout :: i in inp.approving
    ensures UnderAnalysis(w) ==> forall i: nat | i < |cfg.hooks| && cfg.hooks[i] == Rollback :: i !in inp.approving
    ensures w.status.phase == Progressing ==> !OutOfPatience(cfg, w) && !inp.readiness.Stuck?
  {
    ActingTick(cfg, inp, faults, w, c);
  }

  /** Main result: under analysis, weight or mirrored traffic of a progressive rollout is raised
      only if every confirm-traffic-increase hook approves, or traffic is being mirrored. */
  lemma RaisesOnlyIfConfirmed(cfg: Config, inp: Input, faults: seq<Outcome>, w: World, c: Call)
    requires !cfg.skipAnalysis && UnderAnalysis(w) && cfg.iterations <= 0 && !cfg.provider.Kubernetes?
    requires Acts(c) && c in Attempted(TickProgram(cfg, inp, w), faults)
    ensures w.routes.mirrored ||
            forall i: nat | i < |cfg.hooks| && cfg.hooks[i] == ConfirmTrafficIncrease :: i in inp.approving
  {
    ActingTick(cfg, inp, faults, w, c);
  }

  /** Outside an analysis, a canary is settled or a rollout started only with everything read and
      the primary ready, and past the confirm-rollout hooks. */
  lemma StartsOnlyIfReady(cfg: Config, inp: Input, faults: seq<Outcome>, w: World, c: Call)
    requires !InAnalysis(w.status.phase) && w.status.phase != Waiting
    requires c.ScaleFromZero? || c.SyncStatus?
    requires c in Attempted(TickProgram(cfg, inp, w), faults)
    ensures inp.bootstrapped && inp.reconciled && inp.routesRead && inp.statusRead
    ensures cfg.skipAnalysis || inp.primaryReady
    ensures forall i: nat | i < |cfg.hooks| && cfg.hooks[i] == ConfirmRollout :: i in inp.approving
    ensures c == SyncStatus(if IsNew(w.status.phase) then Initialized else Progressing) || c.ScaleFromZero?
  {
    CallsOfTick(cfg, inp, faults, w, c);
    assert inp.bootstrapped;
    CallsOfTwo(ScaleFromZero, SyncStatus(Progressing));
    var move := TickMove(cfg, inp, w);
    assert move.Rest? || move.AwaitRollout? || move.Settle? || move.Start?;
  }

  // ---------------------------------------------------------------------------
  // Ticks under analysis that find everything in place
  // ---------------------------------------------------------------------------

  /** A tick that gets as far as judging the canary. */
  predicate Judges(cfg: Config, inp: Input, w: World) {
    && UnderAnalysis(w) && w.primary.Some?
    && inp.bootstrapped && inp.reconciled && inp.routesRead && (cfg.skipAnalysis || inp.primaryReady)
    && forall i: nat | i < |cfg.hooks| && cfg.hooks[i] == ConfirmRollout :: i in inp.approving
  }

  /** The tick sees a template that is neither the applied nor the promoted one, or configs other
      than those on record. */
  predicate SeesNewRevision(inp: Input, w: World) {
    || (inp.targetReread &&
        (w.status.lastAppliedSpec.None? ||
         Some(w.target.template) !in {w.status.lastAppliedSpec, w.status.lastPromotedSpec}))
    || (inp.configsReread &&
        w.target.configs != (if w.status.trackedConfigs.Some? then w.status.trackedConfigs.value else map[]))
  }

  lemma JudgingTick(cfg: Config, inp: Input, w: World)
    requires Judges(cfg, inp, w)
    ensures TickProgram(cfg, inp, w) == ProgramOf(TickMove(cfg, inp, w))
    ensures TickMove(cfg, inp, w) ==
            if SeesNewRevision(inp, w) then Restart
            else if inp.readiness.NotYet? then Rest
            else SkipMove(cfg, inp, w, JudgeMove(cfg, inp, w))
  {
    assert AllApprove(cfg, inp, ConfirmRollout);
    assert RevisionChanged(inp, w) <==> SeesNewRevision(inp, w);
  }

  /** A new revision starts the analysis over: all traffic back on the primary, counters at zero,
      the target on record, the primary as it was. Without one that never happens. */
  lemma NewRevisionRestarts(cfg: Config, inp: Input, w: World)
    requires Judges(cfg, inp, w)
    ensures var v := Exec(cfg, TickProgram(cfg, inp, w), [], w);
            SeesNewRevision(inp, w) ==>
              && v.status.phase == Progressing
              && v.status.failedChecks == v.status.iterations == v.status.canaryWeight == 0
              && v.status.lastAppliedSpec == Some(w.target.template)
              && v.status.trackedConfigs == Some(w.target.configs)
              && (!cfg.provider.Kubernetes? ==> v.routes == ALL_TO_PRIMARY)
              && v.primary == w.primary && v.replicas == w.replicas && v.target == w.target
    ensures !SeesNewRevision(inp, w) ==>
              forall faults :: SyncStatus(Progressing) !in Attempted(TickProgram(cfg, inp, w), faults)
  {
    JudgingTick(cfg, inp, w);
    if SeesNewRevision(inp, w) {
      ExecTwo(cfg, SetRoutes(ALL_TO_PRIMARY), SyncStatus(Progressing), w);
    } else {
      TickMoveIsJustified(cfg, inp, w);
      var move := TickMove(cfg, inp, w);
      if move.Skip? {
        OnlyRestartsSync(cfg, inp, w, move.otherwise);
        SkipNeverSyncs(ProgramOf(move.otherwise));
      } else {
        OnlyRestartsSync(cfg, inp, w, move);
      }
      forall faults ensures SyncStatus(Progressing) !in Attempted(TickProgram(cfg, inp, w), faults) {
        AttemptedAreWritten(TickProgram(cfg, inp, w), faults);
      }
    }
  }

  lemma OnlyRestartsSync(cfg: Config, inp: Input, w: World, move: Move)
    requires UnderAnalysis(w) && Justified(cfg, inp, w, move) && !move.Restart? && !move.Skip?
    ensures SyncStatus(Progressing) !in CallsIn(ProgramOf(move))
  {
    match move {
      case Wake => CallsOfTwo(SetStatusPhase(Progressing), ScaleFromZero);
      case RollBack => CallsOfTwo(ScaleToZero, SyncStatus(Failed));
      case AdvanceTo(r, counter) => CallsOfTwo(SetRoutes(r), counter);
      case MirrorAndCount(n) => CallsOfTwo(SetRoutes(Routes(TOTAL_WEIGHT, 0, true)), SetStatusIterations(n));
      case PromoteCanary => CallsOfTwo(Promote, SetStatusPhase(Promoting));
      case Finalise(_) => CallsOfTwo(SetRoutes(ALL_TO_PRIMARY), SetStatusPhase(Finalising));
      case Complete => CallsOfTwo(ScaleToZero, SetStatusPhase(Succeeded));
      case _ =>
    }
  }

  lemma SkipNeverSyncs(r: Program)
    requires SyncStatus(Progressing) !in CallsIn(r)
    ensures SyncStatus(Progressing) !in CallsIn(SkipProgram(r))
  {
    var end := Do(SetStatusPhase(Succeeded), Halt, r);
    var promote := Do(Promote, Do(ScaleToZero, end, r), r);
    assert SyncStatus(Progressing) !in CallsIn(end);
    assert SyncStatus(Progressing) !in CallsIn(Do(ScaleToZero, end, r));
    assert SyncStatus(Progressing) !in CallsIn(promote);
    assert SyncStatus(Progressing) !in CallsIn(Do(CopyConfigs, promote, r));
  }

  /** Somebody or something asks for a rollback: a rollback hook, the deadline, or the count of
      failed checks; when the analysis is to be skipped, the last two in every phase. */
  predicate RollbackDue(cfg: Config, inp: Input, w: World) {
    var stuck := inp.readiness.Stuck? || OutOfPatience(cfg, w);
    if cfg.skipAnalysis then stuck
    else
      || (w.status.phase == Progressing && stuck)
      || exists i: nat | i < |cfg.hooks| && cfg.hooks[i] == Rollback :: i in inp.approving
  }

  /** A tick that judges a canary on record rolls back exactly if that is due; what is left then
      is a canary without traffic and pods, and the primary as it was. If it is not due, and the
      analysis is to be skipped, the target is promoted at once. */
  lemma RollsBackExactly(cfg: Config, inp: Input, w: World)
    requires Judges(cfg, inp, w) && !SeesNewRevision(inp, w) && !inp.readiness.NotYet?
    requires w.status.failedChecks >= 0
    ensures var v := Exec(cfg, TickProgram(cfg, inp, w), [], w);
            && (v.status.phase == Failed <==> RollbackDue(cfg, inp, w))
            && (v.status.phase == Failed ==> v.primary == w.primary)
            && (cfg.skipAnalysis && !RollbackDue(cfg, inp, w) ==>
                  v.status.phase == Succeeded && v.primary == Some(w.target))
            && (v.status.phase == Failed || cfg.skipAnalysis ==>
                  v.replicas == 0 && (!cfg.provider.Kubernetes? ==> v.routes == ALL_TO_PRIMARY))
  {
    var move := TickMove(cfg, inp, w);
    RollbackIsDecided(cfg, inp, w);
    if move.RollBack? {
      RollBackLeaves(cfg, w);
    } else if move.Skip? {
      SkipExec(cfg, w, move.otherwise);
    } else {
      OtherMovesDoNotFail(cfg, inp, w, move);
    }
  }

  lemma RollbackIsDecided(cfg: Config, inp: Input, w: World)
    requires Judges(cfg, inp, w) && !SeesNewRevision(inp, w) && !inp.readiness.NotYet?
    requires w.status.failedChecks >= 0
    ensures var move := TickMove(cfg, inp, w);
            && TickProgram(cfg, inp, w) == ProgramOf(move) && Justified(cfg, inp, w, move)
            && (move.RollBack? <==> RollbackDue(cfg, inp, w))
            && (cfg.skipAnalysis && !move.RollBack? ==> move.Skip?)
            && !move.Wake? && !move.Settle? && !move.Start? && !move.Restart?
  {
    JudgingTick(cfg, inp, w);
    TickMoveIsJustified(cfg, inp, w);
  }

  lemma OtherMovesDoNotFail(cfg: Config, inp: Input, w: World, move: Move)
    requires UnderAnalysis(w) && Justified(cfg, inp, w, move)
    requires !move.RollBack? && !move.Skip? && !move.Wake? && !move.Settle? && !move.Start? && !move.Restart?
    ensures Exec(cfg, ProgramOf(move), [], w).status.phase != Failed
  {
    match move {
      case AdvanceTo(r, counter) => ExecTwo(cfg, SetRoutes(r), counter, w);
      case Count(_) => CountingExec(cfg, w, move);
      case MirrorAndCount(_) => CountingExec(cfg, w, move);
      case PromoteCanary => PromotionExec(cfg, w);
      case Rest =>
      case _ => ExecOne(cfg, ProgramOf(move), [], w);
    }
  }

  /** The measurement this tick takes has failed: the metrics or a rollout hook once the canary is
      exposed, a pre-rollout hook before that. */
  predicate MeasuresFailure(cfg: Config, inp: Input, w: World) {
    if Exposed(cfg, w) then
      !inp.metricsPass || exists i: nat | i < |cfg.hooks| && cfg.hooks[i] == Rollout :: i !in inp.approving
    else
      exists i: nat | i < |cfg.hooks| && cfg.hooks[i] == PreRollout :: i !in inp.approving
  }

  /** Main result, the converse of ActsOnlyIfMeasured: a failed measurement with everything else
      in place leaves traffic, pods, primary and iterations as they were, whatever call fails, and
      counts as one failed check unless the write is refused. */
  lemma FailureIsCounted(cfg: Config, inp: Input, faults: seq<Outcome>, w: World)
    requires Judges(cfg, inp, w) && !cfg.skipAnalysis && !SeesNewRevision(inp, w) && !inp.readiness.NotYet?
    requires !RollbackDue(cfg, inp, w) && w.status.failedChecks >= 0 && MeasuresFailure(cfg, inp, w)
    ensures var v := Exec(cfg, TickProgram(cfg, inp, w), faults, w);
            && v.routes == w.routes && v.replicas == w.replicas && v.primary == w.primary && v.target == w.target
            && v.status.phase == w.status.phase && v.status.iterations == w.status.iterations
            && v.status.canaryWeight == w.status.canaryWeight
            && v.status.failedChecks == w.status.failedChecks + if Head(faults).Refused? then 0 else 1
  {
    JudgingTick(cfg, inp, w);
    assert MeasuresFailure(cfg, inp, w) <==> !ChecksPass(cfg, inp, w);
    assert TickMove(cfg, inp, w) == CountFailure(w.status.failedChecks + 1);
    ExecOne(cfg, ProgramOf(TickMove(cfg, inp, w)), faults, w);
  }

  // ---------------------------------------------------------------------------
  // Waiting for approval
  // ---------------------------------------------------------------------------

  /** The answers as they are, but with the approval of every hook of one type. */
  function Granting(cfg: Config, inp: Input, hook: Hook): Input {
    inp.(approving := inp.approving + set i: nat | i < |cfg.hooks| && cfg.hooks[i] == hook)
  }

  /** A tick that would promote, if only all confirm-promotion hooks approved, does nothing but
      record that it waits for them, and does so once. */
  lemma PromotionWaits(cfg: Config, inp: Input, faults: seq<Outcome>, w: World)
    requires !cfg.skipAnalysis && Judges(cfg, inp, w)
    requires TickMove(cfg, Granting(cfg, inp, ConfirmPromotion), w) == PromoteCanary
    requires exists i: nat | i < |cfg.hooks| && cfg.hooks[i] == ConfirmPromotion :: i !in inp.approving
    ensures var v := Exec(cfg, TickProgram(cfg, inp, w), faults, w);
            && v.routes == w.routes && v.primary == w.primary && v.replicas == w.replicas
            && v.status.failedChecks == w.status.failedChecks
            && v.status.phase == (if Head(faults).Refused? then w.status.phase else WaitingPromotion)
            && (w.status.phase == WaitingPromotion ==> v == w)
  {
    TickWaits(cfg, inp, w);
    if w.status.phase != WaitingPromotion {
      OneWrite(cfg, WaitingPromotion, faults, w);
    }
  }

  lemma OneWrite(cfg: Config, phase: Phase, faults: seq<Outcome>, w: World)
    ensures var v := Exec(cfg, Then(SetStatusPhase(phase), Halt), faults, w);
            && v.routes == w.routes && v.primary == w.primary && v.replicas == w.replicas
            && v.status.failedChecks == w.status.failedChecks
            && v.status.phase == if Head(faults).Refused? then w.status.phase else phase
  {
    ExecOne(cfg, Then(SetStatusPhase(phase), Halt), faults, w);
  }

  lemma TickWaits(cfg: Config, inp: Input, w: World)
    requires !cfg.skipAnalysis && Judges(cfg, inp, w)
    requires TickMove(cfg, Granting(cfg, inp, ConfirmPromotion), w) == PromoteCanary
    requires exists i: nat | i < |cfg.hooks| && cfg.hooks[i] == ConfirmPromotion :: i !in inp.approving
    ensures TickProgram(cfg, inp, w) ==
            if w.status.phase == WaitingPromotion then Halt else Then(SetStatusPhase(WaitingPromotion), Halt)
  {
    JudgingTick(cfg, inp, w);
    JudgingTick(cfg, Granting(cfg, inp, ConfirmPromotion), w);
    JudgeWaits(cfg, inp, w);
  }

  lemma JudgeWaits(cfg: Config, inp: Input, w: World)
    requires UnderAnalysis(w)
    requires JudgeMove(cfg, Granting(cfg, inp, ConfirmPromotion), w) == PromoteCanary
    requires exists i: nat | i < |cfg.hooks| && cfg.hooks[i] == ConfirmPromotion :: i !in inp.approving
    ensures JudgeMove(cfg, inp, w) == if w.status.phase == WaitingPromotion then Rest else AwaitPromotion
  {
    SameAnswers(cfg, inp);
    StrategyWaits(cfg, inp, w);
  }

  lemma StrategyWaits(cfg: Config, inp: Input, w: World)
    requires StrategyMove(cfg, Granting(cfg, inp, ConfirmPromotion), w) == PromoteCanary
    requires exists i: nat | i < |cfg.hooks| && cfg.hooks[i] == ConfirmPromotion :: i !in inp.approving
    ensures StrategyMove(cfg, inp, w) == if w.status.phase == WaitingPromotion then Rest else AwaitPromotion
  {
    SameAnswers(cfg, inp);
  }

  /** The other hooks answer as before. */
  lemma SameAnswers(cfg: Config, inp: Input)
    ensures var inp' := Granting(cfg, inp, ConfirmPromotion);
            forall hook: Hook | hook != ConfirmPromotion ::
              && (AllApprove(cfg, inp', hook) <==> AllApprove(cfg, inp, hook))
              && (AnyApproves(cfg, inp', hook) <==> AnyApproves(cfg, inp, hook))
              && (FirstApproves(cfg, inp', hook) <==> FirstApproves(cfg, inp, hook))
  {
    var inp' := Granting(cfg, inp, ConfirmPromotion);
    forall i: nat | i < |cfg.hooks| && cfg.hooks[i] != ConfirmPromotion
      ensures i in inp'.approving <==> i in inp.approving
    {
    }
  }

  /** A withheld confirm-rollout approval stops every tick of a rollout that is not waiting yet:
      all it does is to record that it waits. */
  lemma RolloutWaits(cfg: Config, inp: Input, faults: seq<Outcome>, w: World)
    requires InAnalysis(w.status.phase) && w.primary.Some? && inp.bootstrapped && inp.reconciled
    requires exists i: nat | i < |cfg.hooks| && cfg.hooks[i] == ConfirmRollout :: i !in inp.approving
    ensures var v := Exec(cfg, TickProgram(cfg, inp, w), faults, w);
            && v.routes == w.routes && v.primary == w.primary && v.replicas == w.replicas
            && v.status.iterations == w.status.iterations && v.status.failedChecks == w.status.failedChecks
            && v.status.phase == (if Head(faults).Refused? then w.status.phase else Waiting)
  {
    assert TickMove(cfg, inp, w) == AwaitRollout;
    ExecOne(cfg, ProgramOf(AwaitRollout), faults, w);
  }

  /** A waiting rollout goes on, with pods, exactly if the first confirm-rollout hook approves. */
  lemma WaitingEndsExactly(cfg: Config, inp: Input, w: World)
    requires w.status.phase == Waiting && w.primary.Some? && ConfirmRollout in cfg.hooks
    requires inp.bootstrapped && inp.reconciled
    ensures var v := Exec(cfg, TickProgram(cfg, inp, w), [], w);
            if exists i: nat | i < |cfg.hooks| && cfg.hooks[i] == ConfirmRollout ::
                 i in inp.approving && forall j: nat | j < i :: cfg.hooks[j] != ConfirmRollout
            then
              && v.status.phase == Progressing && v.routes == w.routes && v.primary == w.primary
              && v.replicas == (if w.replicas > 0 then w.replicas else 1)
            else v == w
  {
    if TickMove(cfg, inp, w) == Wake {
      ExecTwo(cfg, SetStatusPhase(Progressing), ScaleFromZero, w);
    }
  }

  // ---------------------------------------------------------------------------
  // Calls in their order
  // ---------------------------------------------------------------------------

  /** However its calls end, a start leaves no rollout in progress without pods. */
  lemma StartsWithPods(cfg: Config, faults: seq<Outcome>, w: World)
    ensures var v := Exec(cfg, ProgramOf(Start), faults, w);
            && (v.status == w.status || v.replicas > 0)
            && v.routes == w.routes && v.primary == w.primary
  {
    var p := ProgramOf(Start);
    ExecOne(cfg, p, faults, w);
    if Head(faults).Done? {
      ExecOne(cfg, p.ok, Tail(faults), Apply(cfg, ScaleFromZero, w));
    }
  }

  /** However its calls end, a promotion puts the template into the primary only after the configs,
      and goes on to Promoting only after the template. */
  lemma PromotesInOrder(cfg: Config, faults: seq<Outcome>, w: World)
    requires w.primary.Some?
    ensures var v := Exec(cfg, ProgramOf(PromoteCanary), faults, w);
            && v.routes == w.routes && v.replicas == w.replicas && v.target == w.target
            && (if Head(faults).Refused? then v == w
                else if Head(faults).Lost? || Head(Tail(faults)).Refused? then
                  v.status == w.status && v.primary == Some(w.primary.value.(configs := w.target.configs))
                else
                  && v.primary == Some(w.target)
                  && (if Head(Tail(faults)).Lost? || Head(Tail(Tail(faults))).Refused? then v.status == w.status
                      else v.status.phase == Promoting))
  {
    var p, w1 := ProgramOf(PromoteCanary), Apply(cfg, CopyConfigs, w);
    ExecOne(cfg, p, faults, w);
    if Head(faults).Done? {
      ExecOne(cfg, p.ok, Tail(faults), w1);
      if Head(Tail(faults)).Done? {
        ExecOne(cfg, p.ok.ok, Tail(Tail(faults)), Apply(cfg, Promote, w1));
      }
    }
  }

  /** However its calls end, the last tick records success only after the canary is scaled down. */
  lemma SucceedsScaledDown(cfg: Config, faults: seq<Outcome>, w: World)
    ensures var v := Exec(cfg, ProgramOf(Complete), faults, w);
            && v.routes == w.routes && v.primary == w.primary
            && (if Head(faults).Refused? then v == w
                else
                  && v.replicas == 0
                  && (if Head(faults).Lost? || Head(Tail(faults)).Refused? then v.status == w.status
                      else v.status.phase == Succeeded && v.status.lastPromotedSpec == w.status.lastAppliedSpec))
  {
    var p := ProgramOf(Complete);
    ExecOne(cfg, p, faults, w);
    if Head(faults).Done? {
      ExecOne(cfg, p.ok, Tail(faults), Apply(cfg, ScaleToZero, w));
    }
  }
}
