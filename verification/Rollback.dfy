// A rollout whose checks keep failing is rolled back, and a rolled-back revision is left
// alone until the target changes.

module Rollback {
  import opened Options
  import opened CanaryStatus
  import opened Analysis
  import opened Cluster
  import opened ConfigTracker
  import opened Tick
  import opened Moves
  import opened Termination
  import Gates

  // ---------------------------------------------------------------------------
  // Towards the rollback
  // ---------------------------------------------------------------------------

  /** A rollout under analysis whose target is on record. */
  ghost predicate UnderAnalysis(cfg: Config, w: World) {
    !cfg.skipAnalysis && w.status.phase == Progressing && w.primary.Some? && Recorded(w)
  }

  /** A tick in which nothing stutters and the checks fail. */
  ghost predicate Failing(cfg: Config, e: Event, w: World) {
    && e.Advance? && e.faults == []
    && var inp := e.inp;
       && inp.bootstrapped && inp.reconciled && inp.routesRead && inp.primaryReady && inp.readiness.Ready?
       && AllApprove(cfg, inp, ConfirmRollout) && Gates.MeasuresFailure(cfg, inp, w)
  }

  ghost predicate FailingRun(cfg: Config, es: seq<Event>, w: World) {
    es != [] ==>
      var init := es[..|es| - 1];
      FailingRun(cfg, init, w) && Failing(cfg, es[|es| - 1], Run(cfg, init, w))
  }

  /** No traffic and no pods for the canary, and the revision on record as failed. */
  ghost predicate RolledBack(cfg: Config, w: World) {
    && w.status.phase == Failed && Recorded(w) && w.primary.Some? && w.replicas == 0
    && w.status.lastAppliedSpec.Some?
    && (!cfg.provider.Kubernetes? ==> w.routes == ALL_TO_PRIMARY)
    && w.status.promoted.Some? && w.status.promoted.value.status == False
  }

  /** One failing tick counts, or rolls back when the patience is used up or a hook asks for it. */
  lemma FailingTick(cfg: Config, e: Event, w: World)
    requires UnderAnalysis(cfg, w) && Failing(cfg, e, w)
    ensures var v := Step(cfg, e, w);
            if AnyApproves(cfg, e.inp, Rollback) || Patience(cfg, w) == 0 then
              RolledBack(cfg, v) && v.primary == w.primary
            else
              && UnderAnalysis(cfg, v) && Patience(cfg, v) == Patience(cfg, w) - 1 && v.primary == w.primary
              && v.status.failedChecks == w.status.failedChecks + 1
  {
    var move := TickMove(cfg, e.inp, w);
    assert TickProgram(cfg, e.inp, w) == ProgramOf(move);
    if move.RollBack? {
      RollBackLeaves(cfg, w);
    } else {
      ExecOne(cfg, ProgramOf(move), [], w);
    }
  }

  /** Main result: as many failing ticks as the threshold has left are counted, and one more
      rolls back; the primary is untouched. */
  lemma {:induction false} FailingRolloutRollsBack(cfg: Config, es: seq<Event>, w: World)
    requires UnderAnalysis(cfg, w) && FailingRun(cfg, es, w)
    requires Rollback !in cfg.hooks && |es| <= Patience(cfg, w) + 1
    ensures var v := Run(cfg, es, w);
            && v.primary == w.primary
            && (|es| <= Patience(cfg, w) ==>
                  && UnderAnalysis(cfg, v) && Patience(cfg, v) == Patience(cfg, w) - |es|
                  && v.status.failedChecks == w.status.failedChecks + |es|)
            && (|es| == Patience(cfg, w) + 1 ==> RolledBack(cfg, v))
  {
    if es != [] {
      var init := es[..|es| - 1];
      FailingRolloutRollsBack(cfg, init, w);
      FailingTick(cfg, es[|es| - 1], Run(cfg, init, w));
    }
  }

  /** From the start of a rollout: `threshold` failures are counted, at least one, and the tick
      after that rolls back. */
  lemma ThresholdIsCounted(cfg: Config, es: seq<Event>, w: World)
    requires UnderAnalysis(cfg, w) && w.status.failedChecks == 0 && FailingRun(cfg, es, w)
    requires Rollback !in cfg.hooks
    ensures var counted := if cfg.threshold > 0 then cfg.threshold else 1;
            && (|es| <= counted ==>
                  Run(cfg, es, w).status.phase == Progressing && Run(cfg, es, w).status.failedChecks == |es|)
            && (|es| == counted + 1 ==> RolledBack(cfg, Run(cfg, es, w)))
  {
    if |es| <= Patience(cfg, w) + 1 {
      FailingRolloutRollsBack(cfg, es, w);
    }
  }

  // ---------------------------------------------------------------------------
  // Afterwards
  // ---------------------------------------------------------------------------

  /** A rollout that is over, one way or the other, with the target on record. */
  ghost predicate Over(w: World) {
    && (w.status.phase == Failed || w.status.phase == Succeeded || w.status.phase == Initialized)
    && w.status.lastAppliedSpec.Some? && Recorded(w) && w.primary.Some?
  }

  /** Without an edit nothing happens any more, whatever the ticks observe. */
  lemma {:induction false} OverMeansOver(cfg: Config, es: seq<Event>, w: World)
    requires Over(w) && forall e <- es :: e.Advance?
    ensures Run(cfg, es, w) == w
  {
    if es != [] {
      var init, e := es[..|es| - 1], es[|es| - 1];
      assert forall e <- init :: e in es;
      OverMeansOver(cfg, init, w);
      assert e in es;
      assert TickProgram(cfg, e.inp, w) == Halt;
    }
  }

  /** After an edit a new rollout starts exactly if the target is no longer on record: a
      failed revision is not retried, and neither is a return to the promoted one. */
  lemma RestartsExactly(cfg: Config, inp: Input, target: Revision, w: World)
    requires Over(w) && ConfirmRollout !in cfg.hooks
    requires inp.reconciled && inp.targetRead && inp.configsRead
    requires inp.primaryReady && inp.routesRead && inp.statusRead
    ensures var v := w.(target := target);
            TickMove(cfg, inp, v) == (if Recorded(v) then Rest else Start)
    ensures Recorded(w.(target := target)) <==>
              && Some(target.template) in {w.status.lastAppliedSpec, w.status.lastPromotedSpec}
              && HasConfigChanged(w.status.trackedConfigs, target.configs) == false
    ensures inp.bootstrapped && !Recorded(w.(target := target)) ==>
              var v := Exec(cfg, TickProgram(cfg, inp, w.(target := target)), [], w.(target := target));
              && v.status.phase == Progressing
              && v.status.failedChecks == v.status.iterations == v.status.canaryWeight == 0
              && v.status.lastAppliedSpec == Some(target.template) && v.status.trackedConfigs == Some(target.configs)
              && v.replicas == (if w.replicas > 0 then w.replicas else 1)
              && v.routes == w.routes && v.primary == w.primary && v.target == target
  {
    var now := w.(target := target);
    if inp.bootstrapped && !Recorded(now) {
      assert TickProgram(cfg, inp, now) == ProgramOf(Start);
      ExecTwo(cfg, ScaleFromZero, SyncStatus(Progressing), now);
    }
  }
}
