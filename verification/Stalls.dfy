// States and configurations in which a rollout does not come to its end.

module Stalls {
  import opened Options
  import opened CanaryStatus
  import opened Analysis
  import opened Cluster
  import opened Tick
  import opened Moves
  import opened RouteSafety
  import opened Ramp
  import opened Termination
  import opened Completion
  import opened Scenarios

  // ---------------------------------------------------------------------------
  // A promotion that has nothing left to shift
  // ---------------------------------------------------------------------------

  /** Stepwise promotion with no weight left on the canary. */
  predicate Drained(cfg: Config, w: World) {
    && !cfg.skipAnalysis && !cfg.provider.Kubernetes? && cfg.stepWeightPromotion > 0
    && w.status.phase == Promoting && w.routes.canary <= 0 && w.primary.Some?
  }

  /** Such a promotion rests for good: without a confirm-rollout hook no tick and no edit
      changes anything but the target. */
  lemma {:induction false} DrainedPromotionStalls(cfg: Config, es: seq<Event>, w: World)
    requires Drained(cfg, w) && ConfirmRollout !in cfg.hooks
    ensures Run(cfg, es, w) == w.(target := Run(cfg, es, w).target)
  {
    if es != [] {
      var init, e := es[..|es| - 1], es[|es| - 1];
      DrainedPromotionStalls(cfg, init, w);
      if e.Advance? {
        var before := Run(cfg, init, w);
        assert TickMove(cfg, e.inp, before).Rest?;
        assert TickProgram(cfg, e.inp, before) == Halt;
      }
    }
  }

  /** A tick that sees everything, and in which the confirm-rollout hooks give this answer. */
  function Polled(cfg: Config, approve: bool): Input {
    Input(true, true, true, true, true, true, true, true, true, true, Ready,
          if approve then set i: nat | i < |cfg.hooks| && cfg.hooks[i] == ConfirmRollout else {}, true)
  }

  lemma {:induction false} FirstHook(hooks: seq<Hook>, hook: Hook, from: nat) returns (i: nat)
    requires from <= |hooks| && hook in hooks && forall j: nat | j < from :: hooks[j] != hook
    ensures i < |hooks| && hooks[i] == hook && forall j: nat | j < i :: hooks[j] != hook
    decreases |hooks| - from
  {
    if from < |hooks| && hooks[from] == hook {
      i := from;
    } else {
      i := FirstHook(hooks, hook, from + 1);
    }
  }

  lemma GateCloses(cfg: Config, w: World)
    requires Drained(cfg, w) && ConfirmRollout in cfg.hooks
    ensures var v := Step(cfg, Advance(Polled(cfg, false), []), w);
            v.status.phase == Waiting && v.primary.Some? && v.status.lastAppliedSpec == w.status.lastAppliedSpec
  {
    var inp := Polled(cfg, false);
    var i := FirstHook(cfg.hooks, ConfirmRollout, 0);
    assert !AllApprove(cfg, inp, ConfirmRollout);
    assert TickMove(cfg, inp, w) == AwaitRollout;
    ExecOne(cfg, ProgramOf(AwaitRollout), [], w);
  }

  lemma GateOpens(cfg: Config, w: World)
    requires w.status.phase == Waiting && w.primary.Some? && ConfirmRollout in cfg.hooks
    ensures Step(cfg, Advance(Polled(cfg, true), []), w).status.phase == Progressing
  {
    var inp := Polled(cfg, true);
    var i := FirstHook(cfg.hooks, ConfirmRollout, 0);
    assert FirstApproves(cfg, inp, ConfirmRollout);
    assert TickMove(cfg, inp, w) == Wake;
    TickOfTwo(cfg, inp, w, SetStatusPhase(Progressing), ScaleFromZero);
  }

  /** With such a hook the rollout can be sent back to its analysis, by withholding the
      approval once and then granting it. */
  lemma GateReopensPromotion(cfg: Config, w: World)
    requires Drained(cfg, w) && ConfirmRollout in cfg.hooks
    ensures var refuse, approve := Advance(Polled(cfg, false), []), Advance(Polled(cfg, true), []);
            && Run(cfg, [refuse], w).status.phase == Waiting
            && Run(cfg, [refuse, approve], w).status.phase == Progressing
  {
    var refuse, approve := Advance(Polled(cfg, false), []), Advance(Polled(cfg, true), []);
    var v := Step(cfg, refuse, w);
    GateCloses(cfg, w);
    GateOpens(cfg, v);
    TraceIsRun(cfg, [refuse], [w, v]);
    TraceIsRun(cfg, [refuse, approve], [w, v, Step(cfg, approve, v)]);
  }

  /** A drained promotion is never left exactly if there is no confirm-rollout hook. */
  lemma DrainedForGoodExactly(cfg: Config, w: World)
    requires Drained(cfg, w)
    ensures (forall es :: Run(cfg, es, w).status.phase == Promoting) <==> ConfirmRollout !in cfg.hooks
  {
    if ConfirmRollout in cfg.hooks {
      GateReopensPromotion(cfg, w);
    } else {
      forall es ensures Run(cfg, es, w).status.phase == Promoting {
        DrainedPromotionStalls(cfg, es, w);
      }
    }
  }

  /** The last step of a stepwise promotion leads there exactly if the traffic has been moved
      and the Finalising phase has not been written: the move took effect but was reported as
      failed, or it succeeded and the write was refused. */
  lemma FinalStepDrainsExactly(cfg: Config, inp: Input, faults: seq<Outcome>, w: World)
    requires Completable(cfg) && Rolling(cfg, w) && Healthy(cfg, inp)
    requires !cfg.provider.Kubernetes? && cfg.stepWeightPromotion > 0
    requires w.status.phase == Promoting && w.routes.canary <= cfg.stepWeightPromotion
    ensures Drained(cfg, Exec(cfg, TickProgram(cfg, inp, w), faults, w)) <==>
            Head(faults) == Lost || (Head(faults) == Outcome.Done && Head(Tail(faults)) == Refused)
  {
    HealthyMoves(cfg, inp, w);
    ShiftBackBalances(cfg, w.routes, cfg.stepWeightPromotion);
    var p := ProgramOf(AdvanceTo(ALL_TO_PRIMARY, SetStatusPhase(Finalising)));
    assert TickProgram(cfg, inp, w) == p;
    var v := Effect(cfg, p.call, Head(faults), w);
    ExecOne(cfg, p, faults, w);
    if Head(faults) == Outcome.Done {
      ExecOne(cfg, p.ok, Tail(faults), v);
    }
  }
}
