// Concrete runs, for the failures and edits that a guarantee has to exclude.

module Scenarios {
  import opened Options
  import opened CanaryStatus
  import opened Analysis
  import opened Cluster
  import opened Tick

  /** Everything readable, ready and healthy; no webhook approves. */
  const CALM := Input(true, true, true, true, true, true, true, true, true, true, Ready, {}, true)

  const V1 := Revision("v1", map[])
  const V2 := Revision("v2", map[])
  const V3 := Revision("v3", map[])

  const NEW_CANARY := World(
    Status(Unset, 0, 0, 0, None, None, None, 0, None), V1, None, 1, ALL_TO_PRIMARY, 0)

  /** The worlds a run passes through, one for each event. */
  ghost predicate IsTrace(cfg: Config, es: seq<Event>, ws: seq<World>) {
    |ws| == |es| + 1 && forall i | 0 <= i < |es| :: ws[i + 1] == Step(cfg, es[i], ws[i])
  }

  lemma {:induction false} TraceIsRun(cfg: Config, es: seq<Event>, ws: seq<World>)
    requires IsTrace(cfg, es, ws)
    ensures Run(cfg, es, ws[0]) == ws[|es|]
  {
    if es != [] {
      TraceIsRun(cfg, es[..|es| - 1], ws[..|es|]);
    }
  }

  /** A tick of two calls, of a canary that has its primary. */
  lemma TickOfTwo(cfg: Config, inp: Input, w: World, c: Call, d: Call)
    requires inp.bootstrapped && w.primary.Some? && !IsNew(w.status.phase)
    requires ProgramOf(TickMove(cfg, inp, w)) == Then(c, Then(d, Halt))
    ensures Step(cfg, Advance(inp, []), w) == Apply(cfg, d, Apply(cfg, c, w))
  {
    ExecTwo(cfg, c, d, w);
  }

  const TICK := Advance(CALM, [])

  /** The first tick of a new canary without confirm-rollout hooks. */
  lemma Settled(cfg: Config)
    requires ConfirmRollout !in cfg.hooks
    ensures var w := Step(cfg, TICK, NEW_CANARY);
            && w.status.phase == Initialized && w.status.failedChecks == w.status.iterations == 0
            && w.status.lastAppliedSpec == Some("v1") && w.status.lastPromotedSpec.None?
            && w.status.trackedConfigs == Some(map[])
            && w.target == V1 && w.primary == Some(V1) && w.replicas == 0 && w.routes == ALL_TO_PRIMARY
  {
    var w0, settle := NEW_CANARY, ProgramOf(Settle);
    assert TickProgram(cfg, CALM, w0) == Then(CreatePrimary, Then(ScaleToZero, settle));
    ExecOne(cfg, Then(CreatePrimary, Then(ScaleToZero, settle)), [], w0);
    ExecTwo(cfg, ScaleToZero, SyncStatus(Initialized), Apply(cfg, CreatePrimary, w0));
  }

  /** The tick after that, when the target has changed to v2. */
  lemma Started(cfg: Config)
    requires ConfirmRollout !in cfg.hooks
    ensures var w := Step(cfg, TICK, Step(cfg, TICK, NEW_CANARY).(target := V2));
            && w.status.phase == Progressing && w.status.failedChecks == w.status.iterations == 0
            && w.status.lastAppliedSpec == Some("v2") && w.status.lastPromotedSpec.None?
            && w.status.trackedConfigs == Some(map[])
            && w.target == V2 && w.primary == Some(V1) && w.replicas == 1 && w.routes == ALL_TO_PRIMARY
  {
    Settled(cfg);
    var w := Step(cfg, TICK, NEW_CANARY).(target := V2);
    assert TickMove(cfg, CALM, w) == Start;
    TickOfTwo(cfg, CALM, w, ScaleFromZero, SyncStatus(Progressing));
  }
}
