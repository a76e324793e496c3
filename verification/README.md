# Flagger's rollout controller, verified

This project models Flagger's canary rollout controller and proves what it promises. The
controller is a persisted state machine that is advanced one tick at a time: a tick reads the
status and the routes, runs checks and gates, shifts traffic, copies the target into the
primary and writes the status back under optimistic concurrency.

## How the model is built

- `CanaryStatus`: the status record, its setters as in-place amendments of a copy, and the
  retry loop against other writers. `Analysis`: the analysis section of a Canary and the
  weight arithmetic.
- `Cluster`: everything that persists between ticks (`World`), the API calls that change it,
  and *programs* of calls. Each call can be done, refused, or lost (it takes effect but
  reports an error). `Api` is the imperative form, objects whose fields are updated in place.
- `Tick`: what one tick decides (`Move`) and the program of calls each decision is made of.
  `Scheduler` is the imperative controller, written in the order of the source; its
  `AdvanceCanary` is proved to end where the program of `Tick` ends, for every observation
  and every pattern of failures. A run is a sequence of ticks and of edits of the target.
- `Moves` says which decision can be taken in which state. `RouteSafety`, `ReplicaSafety`,
  `PromotionIntegrity`, `EarnedPromotion`, `Termination`, `Completion`, `Rollback`, `Stalls`
  and `Reach` are statements over all runs; `Ramp` has the closed forms of the weights,
  `Timetable` what a healthy rollout does in which tick, and `Gates` what has to be measured and
  approved before a tick acts;
  `Scenarios` and the lemmas named after failures are concrete runs that show why a
  condition is needed.
- `Istio`, `MatchConditions`, `Ingress` (NGINX) and `Skipper` (with `Predicates`, `Decimal`,
  `IngressRules` and `Metadata`) are the traffic stores behind the machine. `Istio.RouterRefinesRollout`
  connects one to the other.
- `PodSpecs`, `ConfigCopies` and `TrackedConfigs` are config tracking; `JobTable` is the table of running jobs.

## What turned out not to hold

Each of these is kept as the code has it. The lemma named first says when the code does what it
should, as an equivalence; where two are named, the second shows the failure.

- Route safety (`RouteSafety.SkipBreaksExactly`, `RouteSafety.LostSuccessBreaksSafety`): with
  skipAnalysis, a Succeeded write that takes effect but reports an error is followed by an
  advance, so traffic flows to the canary in phase Succeeded.
- Pods behind the canary's traffic (`ReplicaSafety.WakeTearsExactly` and `RollBackTearsExactly`,
  `ReplicaSafety.UnrecordedRollbackStarvesCanary`): a refused scale-up after the phase write, or
  a rollback whose Failed write is refused, leaves an analysis with zero pods. With skipAnalysis
  (`ReplicaSafety.SkipStarvesExactly`, `RefusedSuccessStarvesCanary`): when scaling down or the
  Succeeded write is reported as failed, the strategy gives traffic to a canary just scaled down.
- What a promotion records (`PromotionIntegrity.PromotesFaithfullyExactly`,
  `RevertDuringRolloutIsForgotten` and `DroppedReadPromotesUnrecorded`): after a return to the
  promoted revision in mid-rollout, and after a failed read of a changed target, the record
  names a revision the primary does not run. With skipAnalysis (`SkipPromotesFaithfullyExactly`,
  `EditedPromotionIsUnrecorded`) so does an edit during the promotion.
- What the set-up records (`PromotionIntegrity.SettlesFaithfullyExactly`,
  `EditDuringStartupIsForgotten`): the same in phase Initialized, after an edit while the
  primary starts up.
- Promotion after analysis (`EarnedPromotion.UnearnedExactly`, `UnearnedExists`): a maximum
  weight that is not positive promotes without analysis.
- Success of a progressive rollout (`Reach.SucceedsExactly`, with `SucceedsByStep` and
  `SucceedsByList`): some configurations cannot succeed, among them a maximum weight above 100,
  a list that falls before it gets to its maximum, a mirror step the router forgets, and a
  negative promotion step.
- The end of a stepwise promotion (`Stalls.FinalStepDrainsExactly` and `DrainedForGoodExactly`):
  it rests when its last traffic change took effect but was reported as failed, or when the
  Finalising write is refused after it; for good if there is no confirm-rollout hook.
  For an NGINX A/B test it never ends with a step below 100 (`Ingress.SteppedPromotionStalls`).
- Termination of a progressive rollout (`Termination.RollBackRaisesExactly`): a rollback that
  stops after the traffic change sets the ramp back to its start.
- The user's VirtualService (`Istio.RestoredExactly`, `Istio.ChangedCanaryForgetsOriginal`): a
  record in sync is not saved, delegation saves it without hosts and gateways, and a change of
  the Canary overwrites what was saved.
- Conditions of an A/B test (`MatchConditions.MergeMeans`, `CanaryUriIsDropped` and
  `DefaultHeadersAreOverridden`): URI conditions are dropped when the service has conditions of
  its own, and headers on both sides override the service's. The comment above
  `mergeMatchConditions` speaks of appending URI rules; the model follows the code.
- References to configs (`TrackedConfigs.IntactExactly`): init containers are tracked but not
  renamed.
- Names of copies (`ConfigCopies.CarriesExactly`, `AllOrdersCarryExactly` and
  `TargetKeepsExactly`): where a tracked name is another one plus `-primary`, the data may be
  mixed up, depending on the order of a map, and the target's own object is overwritten.
- Skipper's predicates (`Skipper.KeptAsWrittenExactly`, `QuotedSeparatorIsSplit`): a `&&` inside
  a quoted argument is taken for a separator.
- NGINX weights and annotations (`Ingress.WeightsReadBack`, `Ingress.SelectionReadsBack`,
  `Ingress.ABReadsBackExactly`, `Ingress.EmptySelectionStaysPrimary`,
  `Ingress.MentionOfCanaryIsDropped`).

The usage guide counts `threshold` intervals to a rollback; the code counts that many failures
and rolls back in the tick after (`Rollback.FailingRolloutRollsBack`). Likewise promotion comes
one tick after the last step of the ramp (`Ramp.RampLengthOfStep`).

## Assumptions

Hashes of pod templates are compared as if injective; checksums of configs are taken to be
injective and never empty where that matters (`IsDigest`). JSON is lossless. The analysis
section is present and does not change during a run. Webhook answers, metric results,
readiness and read failures are arbitrary inputs of each tick.

## Model

| member | source | states |
|---|---|---|
| PromotionIntegrity.PromotionsAreFaithful | linkerd/flagger/pkg/controller/scheduler.go:273-296 | In every world of every run, whatever calls fail, with skipAnalysis or without (reads good, no revert while analysing; with skipAnalysis, no edit while promoting): phases Promoting, Finalising and Succeeded are only seen with the primary at the revision on record, and Succeeded has it recorded as promoted |
| PromotionIntegrity.UnchangedMeansRecorded | linkerd/flagger/pkg/canary/spec.go:32-49 | An analysing tick that sees no change has the recorded revision in its target exactly if the target was not put back to the promoted template |
| PromotionIntegrity.IdleMeansInSync | linkerd/flagger/pkg/controller/scheduler.go:750-776 | In Succeeded, the target and configs read as unchanged exactly if the primary runs the target |
| PromotionIntegrity.QuietMeansLive | linkerd/flagger/pkg/controller/scheduler.go:750-776 | The same over every run: after a success the scheduler has nothing to do exactly if the target is live |
| PromotionIntegrity.PromotesFaithfullyExactly | linkerd/flagger/pkg/controller/scheduler.go:536-554 | Whatever the tick could read, a promotion leaves record and primary in agreement exactly if the target is the revision on record; with both reads succeeding, that is unless it was reverted |
| PromotionIntegrity.SkipPromotesFaithfullyExactly | linkerd/flagger/pkg/controller/scheduler.go:719-745 | The promotion of skipAnalysis leaves record and primary in agreement exactly if the target is the revision on record; from phases Promoting and Finalising, which have no revision check, that is if the primary runs the target already |
| PromotionIntegrity.EditedPromotionIsUnrecorded | linkerd/flagger/pkg/controller/scheduler.go:719-745 | Such a run: v3 deployed while v2 is being promoted goes live at once, and v2 is recorded as promoted |
| PromotionIntegrity.DroppedReadPromotesUnrecorded | linkerd/flagger/pkg/controller/scheduler.go:827-838 | A failed read counts as no change: every promotion of a changed target is one whose read failed, and it leaves record and primary in disagreement without any revert |
| PromotionIntegrity.RevertDuringRolloutIsForgotten | linkerd/flagger/pkg/canary/spec.go:40-42 | A run of eight events: after a revert in mid-rollout the later deployment of v3 is taken for nothing to do while v2 stays live |
| PromotionIntegrity.SettlesFaithfullyExactly | linkerd/flagger/pkg/controller/scheduler.go:791-803 | The tick that settles a new canary leaves record and primary in agreement exactly if it creates the primary or finds the target there |
| PromotionIntegrity.InitializedIsFaithful | linkerd/flagger/pkg/controller/scheduler.go:791-803 | In every world of every run, whatever calls fail: phase Initialized is only seen with the recorded revision in the primary, if the target is not edited between the creation of the primary and the end of the set-up |
| PromotionIntegrity.EditDuringStartupIsForgotten | linkerd/flagger/pkg/controller/scheduler.go:791-803 | Why the edit has to wait: a run of three events after which phase Initialized records a revision the primary never got |
| RouteSafety.TrafficIsSafe | linkerd/flagger/pkg/controller/scheduler.go:840-877 | Every run, any call failing in any way: all weight pairs sent to the router are splits of 100, and in phases Initialized, Finalising, Succeeded and Failed (and before) the routes are exactly 100/0, not mirrored |
| RouteSafety.RunKeepsInv | linkerd/flagger/pkg/controller/scheduler.go:427-480 | The inductive form of it: also for the worlds between two calls of a tick, and for any start that satisfies it |
| RouteSafety.ShiftBackSplits | linkerd/flagger/pkg/controller/scheduler.go:451-463 | One step back to the primary is a split exactly if the step is not below minus the primary weight; reaching 100 means nothing is left on the canary |
| RouteSafety.AdvanceSplits | linkerd/flagger/pkg/controller/scheduler.go:489-520 | One step forward is a split exactly if leaving the mirror step does not overshoot 100 |
| RouteSafety.LostSuccessBreaksSafety | linkerd/flagger/pkg/controller/scheduler.go:697-748 | Why skipAnalysis has to be excluded for one failure: a Succeeded write that takes effect but reports an error is followed by an advance, 90/10 in phase Succeeded |
| RouteSafety.SkipEnds | linkerd/flagger/pkg/controller/scheduler.go:711-745 | skipAnalysis with a Succeeded write that fails goes on with the whole strategy, otherwise the tick ends |
| RouteSafety.SkipBreaksExactly | linkerd/flagger/pkg/controller/scheduler.go:730-748 | Of the ways that write can end, exactly the lost one breaks route safety, whenever the strategy would give the canary traffic, be it a weight or all of it |
| ReplicaSafety.CanaryIsFed | linkerd/flagger/pkg/controller/scheduler.go:849-870 | In every world of every run without half-done scaling, other failures allowed, weight on the canary means it has pods, and an analysis or promotion is never left at zero replicas; with skipAnalysis the Succeeded write must be done as well |
| ReplicaSafety.WakeTearsExactly | linkerd/flagger/pkg/controller/scheduler_hooks.go:61-71 | Resuming a waiting rollout leaves an analysis without pods exactly in the failures excluded above |
| ReplicaSafety.RollBackTearsExactly | linkerd/flagger/pkg/controller/scheduler.go:840-877 | Rolling back leaves an analysis without pods exactly in the failures excluded above |
| ReplicaSafety.SkipStarvesExactly | linkerd/flagger/pkg/controller/scheduler.go:719-748 | Over all patterns of failures: a tick of skipAnalysis whose strategy would give the canary traffic leaves it there without pods exactly if scaling down took effect, it or the Succeeded write was reported as failed, and the traffic change that follows took effect |
| ReplicaSafety.RefusedSuccessStarvesCanary | linkerd/flagger/pkg/controller/scheduler.go:730-748 | Such a run: the Succeeded write refused, 10% of the traffic on no pods in phase Progressing |
| ReplicaSafety.UnrecordedRollbackStarvesCanary | linkerd/flagger/pkg/controller/scheduler.go:857-870 | A run of five events that sends 10% of the traffic to no pods after a rollback that could not be recorded |
| EarnedPromotion.PromotionIsEarned | linkerd/flagger/pkg/controller/scheduler.go:369-387 | A tick that copies configs or the template into the primary is one whose confirm-promotion hooks all approved, whose metrics passed and rollout hooks all approved (unless the maximum weight is not positive), whose target and configs were unchanged, and which was below the failure threshold |
| EarnedPromotion.UnearnedExactly | linkerd/flagger/pkg/controller/scheduler.go:40-50 | At the start of a progressive rollout promotion is due without analysis exactly if the maximum weight is not positive although the first step is |
| EarnedPromotion.UnearnedExists | linkerd/flagger/pkg/controller/scheduler.go:40-50 | The step list 50, 0 is such a case |
| EarnedPromotion.CallsOfTick | linkerd/flagger/pkg/controller/scheduler.go:188-192 | Every call a tick attempts belongs to the move it decided on, apart from creating and parking the workloads |
| EarnedPromotion.IterationsAreBacked | linkerd/flagger/pkg/canary/status.go:117-161 | In every run the iteration counter is at most the number of passing ticks since it was last zero, and at most the configured iterations (plus one for Blue/Green) |
| EarnedPromotion.TickCounts | linkerd/flagger/pkg/controller/scheduler.go:558-669 | One tick resets the counter, keeps it, or raises it by one, and the last only if its checks passed |
| EarnedPromotion.SwitchComesAfterTheTests | linkerd/flagger/pkg/controller/scheduler.go:601-669 | Blue/Green gives the canary traffic only in a passing, approved tick after that many passing ticks, all of it at once; Promote needs one passing tick more |
| Gates.ActsOnlyIfMeasured | linkerd/flagger/pkg/controller/scheduler.go:369-387 | Analysis on, in Progressing or WaitingPromotion, any failures: every attempted Promote, CopyConfigs, iteration write and route change with weight or mirror on the canary means that the metrics passed and every rollout hook approved if the canary had weight, mirrored traffic or iterations, and otherwise that every pre-rollout hook approved |
| Gates.ActsOnlyIfReady | linkerd/flagger/pkg/controller/scheduler.go:231-350 | In every phase such a call means that everything was read, primary and canary ready, every confirm-rollout hook approving, and under analysis no rollback hook; in Progressing also fewer failed checks than the threshold and no exceeded deadline |
| Gates.StartsOnlyIfReady | linkerd/flagger/pkg/controller/scheduler.go:231-271 | Outside an analysis a canary is settled or a rollout started only with everything read, the primary ready and every confirm-rollout hook approving |
| Gates.RaisesOnlyIfConfirmed | linkerd/flagger/pkg/controller/scheduler.go:414-423 | Under a progressive analysis such a call also means that every confirm-traffic-increase hook approves, or that traffic is being mirrored |
| Gates.FailureIsCounted | linkerd/flagger/pkg/controller/scheduler.go:369-387 | The converse: failing metrics or a refusing hook, with all else in place, leave routes, pods, primary and iterations as they were, whatever call fails, and raise the failed checks by one unless the write is refused |
| Gates.RollsBackExactly | linkerd/flagger/pkg/controller/scheduler.go:308-360 | A judging tick ends in Failed exactly if a rollback hook approves, or in Progressing the deadline or the threshold is reached; with skipAnalysis exactly in the last two cases, in any phase under analysis, and otherwise the target is promoted at once |
| Gates.NewRevisionRestarts | linkerd/flagger/pkg/controller/scheduler.go:273-296 | A changed template or changed configs start the analysis over: all traffic on the primary, counters zero, the target on record, primary and pods as they were; without a change, the status is never synced to Progressing, whatever fails |
| Gates.PromotionWaits | linkerd/flagger/pkg/controller/scheduler_hooks.go:79-101 | A tick that would promote but for a missing confirm-promotion approval only records WaitingPromotion, and only once |
| Gates.RolloutWaits | linkerd/flagger/pkg/controller/scheduler_hooks.go:44-60 | A missing confirm-rollout approval makes any tick of a rollout do nothing but record Waiting |
| Gates.WaitingEndsExactly | linkerd/flagger/pkg/controller/scheduler_hooks.go:61-71 | A waiting rollout goes on, with pods, exactly if its first confirm-rollout hook approves; otherwise nothing changes |
| Gates.StartsWithPods | linkerd/flagger/pkg/controller/scheduler.go:813-821 | Whatever fails, a start that changes the status has pods |
| Gates.PromotesInOrder | linkerd/flagger/pkg/canary/deployment_controller.go:103-150 | For every pattern of failures: the template reaches the primary only after the configs, phase Promoting only after the template |
| Gates.SucceedsScaledDown | linkerd/flagger/pkg/controller/scheduler.go:330-346 | For every pattern of failures: success is recorded only after the canary is scaled down |
| Timetable.BlueGreenRun | linkerd/flagger/pkg/controller/scheduler.go:601-669 | A healthy Blue/Green rollout of n tests (ten by default with the kubernetes provider), tick by tick: the canary gets nothing, or the mirror, for n ticks, all traffic in the next, and is promoted in the one after that |
| Timetable.ABRun | linkerd/flagger/pkg/controller/scheduler.go:558-599 | A healthy A/B test of n iterations, tick by tick: the canary takes what is selected from the first tick on, and is promoted after n |
| Timetable.TestsSucceedOnTime | linkerd/flagger/pkg/controller/scheduler.go:558-669 | Both succeed after exactly the tests, the switch, the promotion (one tick, or one for each step back) and the last tick |
| Timetable.CanaryRun | linkerd/flagger/pkg/controller/scheduler.go:484-533 | A healthy progressive rollout, tick by tick, for a fixed step and for an increasing list: the mirror step, if any, then min(100, k steps) or the k-th entry on routes and status; the tick after the maximum weight promotes |
| Timetable.CanarySucceedsOnTime | linkerd/flagger/pkg/controller/scheduler.go:484-533 | It succeeds after exactly the mirror step, ceil(maximum / step) or list length many advances, the promoting tick, ceil(peak / promotion step) or one, and the last tick |
| Moves.TickMoveIsJustified | linkerd/flagger/pkg/controller/scheduler.go:231-424 | Each decision a tick can come to, with the phase, checks, gates and counters that must have led to it |
| Moves.TickByMoves | linkerd/flagger/pkg/controller/scheduler.go:187-213 | What every justified decision respects from every agreeing world is respected by the whole tick, creation of the primary included |
| Ramp.GuardPassesExactly | linkerd/flagger/pkg/controller/scheduler.go:57-87 | For a step list within 1..100 (100 only last) the guard `next step > 0` passes at every weight of the list exactly if the list is strictly increasing |
| Ramp.HeldUpAtTheDescent | linkerd/flagger/pkg/controller/scheduler.go:79-84 | A list that does not increase has an entry at which the guard does not pass; whether a rollout gets there is told by Reach.PassesByList |
| Ramp.StepIsPositive | linkerd/flagger/pkg/controller/scheduler.go:414-423 | With climbing steps the guard passes at every weight from 0 to 100 |
| Ramp.ClimbFollowsTheList | linkerd/flagger/pkg/controller/scheduler.go:489-520 | The k-th advance of a step list that has increased so far sets the canary to the k-th entry or to 100, after a mirror step or without |
| Ramp.ClimbFollowsTheStep | linkerd/flagger/pkg/controller/scheduler.go:511-520 | The k-th advance of a fixed step sets the canary to min(100, k steps) |
| Ramp.OvershootIsBounded | linkerd/flagger/pkg/controller/scheduler.go:40-50 | A fixed step overshoots the maximum weight by less than one step, and never 100 |
| Ramp.RampLengthOfList | linkerd/flagger/pkg/controller/scheduler.go:484-533 | A step list takes one advance for each entry and ends at the last one |
| Ramp.RampLengthOfStep | linkerd/flagger/pkg/controller/scheduler.go:484-533 | A fixed step takes ceil(maximum / step) advances and ends at min(100, that many steps) |
| Ramp.ClimbUsesUp | linkerd/flagger/pkg/controller/scheduler.go:484-533 | k advances below the maximum use up exactly k of the advances left and do not change where the ramp ends |
| Ramp.DescentTicksIsCeiling | linkerd/flagger/pkg/controller/scheduler.go:451-477 | Taking weight c back by steps of q takes ceil(c / q) ticks |
| Ramp.DescentIsLinear | linkerd/flagger/pkg/controller/scheduler.go:451-463 | After k steps back the canary has max(c - kq, 0) and the primary the rest |
| Termination.RolloutTerminates | linkerd/flagger/pkg/controller/scheduler.go:350-424 | In every run without edits that stays in the rollout (analysis on), whatever stutters or fails: the effective ticks plus the measure at the end are at most the measure at the start plus one ramp for each torn rollback; A/B and Blue/Green have no ramp to lose |
| Termination.SkippedRolloutTerminates | linkerd/flagger/pkg/controller/scheduler.go:711-748 | With skipAnalysis, whatever stutters or fails: a run without edits that stays in the rollout has no effective tick if the target is on record, and at most one otherwise, which records it |
| Termination.SkippingTick | linkerd/flagger/pkg/controller/scheduler.go:711-748 | With skipAnalysis an effective tick ends in Succeeded or Failed, or finds a new revision and records it |
| Termination.OneTickCosts | linkerd/flagger/pkg/controller/scheduler.go:350-424 | The same for one tick |
| Termination.TickDoesNotRaise | linkerd/flagger/pkg/controller/scheduler.go:350-424 | No tick raises the measure (analysis on), any failure allowed, except for a torn rollback of a progressive rollout |
| Termination.EffectiveTickLowers | linkerd/flagger/pkg/controller/scheduler.go:350-424 | A tick in which nothing stutters ends the analysis or lowers the measure by exactly one |
| Termination.EffectiveMoves | linkerd/flagger/pkg/controller/scheduler.go:389-424 | A tick in which nothing stutters always has something to do |
| Termination.RollBackRaisesExactly | linkerd/flagger/pkg/controller/scheduler.go:840-877 | A rollback raises the measure of a progressive rollout exactly if it is torn (traffic moved, phase Failed not written) and the ramp had got further than its start |
| Termination.TornRollBackRaises | linkerd/flagger/pkg/controller/scheduler.go:840-877 | From any weight the ramp has climbed to: exactly if it is torn |
| Termination.RollBackEnds | linkerd/flagger/pkg/controller/scheduler.go:840-877 | For every pattern of failures a rollback is not begun, torn, or done |
| Completion.HealthyRolloutSucceeds | linkerd/flagger/pkg/controller/scheduler.go:231-424 | A healthy, approved rollout is in Succeeded after exactly the predicted number of ticks and not before; the target is then in the primary with all traffic, the canary is scaled down, and the condition is True |
| Completion.HealthyTick | linkerd/flagger/pkg/controller/scheduler.go:231-424 | Each healthy tick brings the rollout exactly one tick closer, through analysis, gates, promotion and finalising |
| Completion.HealthyRolloutClimbs | linkerd/flagger/pkg/controller/scheduler.go:484-533 | The k-th healthy tick of a progressive rollout leaves routes and recorded weight at the k-th step of the ramp |
| Completion.PromotionDescends | linkerd/flagger/pkg/controller/scheduler.go:427-480 | The k-th healthy tick of a stepwise promotion leaves the routes at the k-th step back, and Finalising begins exactly when nothing is left on the canary |
| Completion.StartIsRolling | linkerd/flagger/pkg/controller/scheduler.go:813-821 | Every rollout that has just been started, under every strategy, is in the state these results start from |
| Stalls.DrainedPromotionStalls | linkerd/flagger/pkg/controller/scheduler.go:451-480 | A stepwise promotion with nothing left on the canary rests for good without confirm-rollout hooks: no ticks and no edits change anything but the target |
| Stalls.DrainedForGoodExactly | linkerd/flagger/pkg/controller/scheduler_hooks.go:44-77 | It is never left exactly if there is no confirm-rollout hook |
| Stalls.GateReopensPromotion | linkerd/flagger/pkg/controller/scheduler_hooks.go:49-71 | With such a hook, a refusal and an approval send the rollout back to its analysis |
| Stalls.FinalStepDrainsExactly | linkerd/flagger/pkg/controller/scheduler.go:461-477 | The last step of a stepwise promotion leads there, over all patterns of failures, exactly if the traffic was moved but reported as failed, or moved and the Finalising write refused |
| Reach.BarredRun | linkerd/flagger/pkg/controller/scheduler.go:414-477 | Over every run, whatever fails and is edited: where no advance leaves a set of routes from which no promotion can be due, or none can end, no phase beyond is ever seen |
| Reach.HeldUpOnPath | linkerd/flagger/pkg/controller/scheduler.go:414-423 | Such a set are the weights of a ramp that does not pass |
| Reach.HeldUpAtMirror | linkerd/flagger/pkg/controller/scheduler.go:489-509 | Such a set is 100/0 alone if there is a mirror step and the router does not store it |
| Reach.SucceedsExactly | linkerd/flagger/pkg/controller/scheduler.go:484-533 | For every progressive configuration: some run, with whatever observations, failures and edits, succeeds exactly if the ramp passes and the promotion can finish |
| Reach.SucceedsByStep | linkerd/flagger/pkg/controller/scheduler.go:40-63 | Without a step list, that is exactly if the step is positive, the promotion step not negative, the mirror step (if any) stored, and the maximum weight at most 100 or at most the step after a mirror step |
| Reach.SucceedsByList | linkerd/flagger/pkg/controller/scheduler.go:40-87 | With any step list, that is exactly if there is a fixed step or the list passes, and, for a positive maximum weight, the promotion step is not negative and the mirror step (if any) stored; otherwise there must be no promotion step |
| Reach.PassesByStep | linkerd/flagger/pkg/controller/scheduler.go:57-63 | The ramp of a fixed step passes exactly under that condition |
| Reach.PassesByList | linkerd/flagger/pkg/controller/scheduler.go:57-87 | The ramp of any list passes exactly if its first entry is positive and, for a positive maximum weight, the list increases up to its first entry that reaches the maximum and does not fall right after it |
| Reach.FallingListPasses | linkerd/flagger/pkg/controller/scheduler.go:79-84 | The list 10, 30, 5 passes, the list 10, 30, 20, 40 does not |
| Rollback.FailingRolloutRollsBack | linkerd/flagger/pkg/controller/scheduler.go:345-387 | Failing ticks are counted one by one up to the threshold; the next one rolls back: no traffic, no pods, phase Failed, condition False, the primary untouched |
| Rollback.ThresholdIsCounted | linkerd/flagger/pkg/controller/scheduler.go:345-387 | From the start, `threshold` failures, at least one, are counted, and the tick after them rolls back |
| Rollback.FailingTick | linkerd/flagger/pkg/controller/scheduler.go:352-360 | One failing tick counts, or rolls back if the threshold is reached or a rollback hook asks for it |
| Rollback.OverMeansOver | linkerd/flagger/pkg/controller/scheduler.go:750-776 | After a failure or success no number of ticks changes anything, whatever they observe |
| Rollback.RestartsExactly | linkerd/flagger/pkg/canary/spec.go:32-49 | After an edit a new rollout starts exactly if the target is no longer on record: neither the failed nor the promoted revision is tried again, unless a config changed; it starts with counters at zero, the target on record, pods, and the traffic where it was |
| Scheduler.Controller.AdvanceCanary | linkerd/flagger/pkg/controller/scheduler.go:157-425 | The tick, call by call in the order of the source, ends in exactly the world its specification (the program of calls of the decided move) leads to, for every pattern of failures |
| Scheduler.Controller.RunPromotionTrafficShift | linkerd/flagger/pkg/controller/scheduler.go:427-480 | Promotion traffic shift: one step back or all at once, then the weight or the Finalising phase, as specified |
| Scheduler.Controller.RunCanary | linkerd/flagger/pkg/controller/scheduler.go:484-556 | Progressive strategy: advance or promote, as specified |
| Scheduler.Controller.RunAB | linkerd/flagger/pkg/controller/scheduler.go:558-599 | A/B strategy: count and switch, or promote behind the gate, as specified |
| Scheduler.Controller.RunBlueGreen | linkerd/flagger/pkg/controller/scheduler.go:601-669 | Blue/Green strategy: mirror and count, switch, promote, as specified |
| Scheduler.Controller.ShouldSkipAnalysis | linkerd/flagger/pkg/controller/scheduler.go:697-748 | skipAnalysis: roll back, or promote at once and go on with the tick if a call fails, as specified |
| Scheduler.Controller.CheckShouldAdvance | linkerd/flagger/pkg/controller/scheduler.go:750-776 | Whether the tick goes past the change check |
| Scheduler.Controller.CheckCanaryStatus | linkerd/flagger/pkg/controller/scheduler.go:778-825 | Settles a new canary, starts a rollout, or lets an analysis go on |
| Scheduler.Controller.HasCanaryRevisionChanged | linkerd/flagger/pkg/controller/scheduler.go:827-838 | Revision check in mid-analysis; failed reads count as no change |
| Scheduler.Controller.RollBack | linkerd/flagger/pkg/controller/scheduler.go:840-877 | Traffic back, scale down, record phase Failed, stopping at the first failure |
| Scheduler.Controller.Judge | linkerd/flagger/pkg/controller/scheduler.go:338-424 | From the rollback hooks to the end of the tick, as specified |
| Scheduler.Controller.PromoteCanary | linkerd/flagger/pkg/controller/scheduler.go:536-554 | Copies the target into the primary and records phase Promoting |
| Scheduler.Controller.RunAnalysis | linkerd/flagger/pkg/controller/scheduler.go:671-695 | Rollout hooks in order, then metrics; Gates.ActsOnlyIfMeasured and FailureIsCounted say what hangs on the answer |
| Scheduler.Controller.HooksApprove | linkerd/flagger/pkg/controller/scheduler_hooks.go:103-117 | All hooks of a type approve, with exit at the first refusal |
| Scheduler.Controller.RunConfirmRolloutHooks | linkerd/flagger/pkg/controller/scheduler_hooks.go:44-77 | Gate before the rollout: a waiting one resumes and scales up at its first approval, any other tick waits at the first refusal |
| Scheduler.Controller.RunConfirmPromotionHooks | linkerd/flagger/pkg/controller/scheduler_hooks.go:79-101 | Gate before the promotion: the first refusal records WaitingPromotion once |
| Scheduler.Controller.RunRollbackHooks | linkerd/flagger/pkg/controller/scheduler_hooks.go:134-147 | Some rollback hook approves |
| Scheduler.Controller.Initialize | linkerd/flagger/pkg/canary/deployment_controller.go:49-81 | Creates the primary and parks a new canary, or ends the tick |
| Analysis.FindNextStepWeight | linkerd/flagger/pkg/controller/scheduler.go:57-87 | The loop over the step list computes the next step of the specification, first match before the last entry |
| Cluster.Api.CreatePrimary | linkerd/flagger/pkg/canary/deployment_controller.go:222-307 | A new primary gets the target's revision; applied, refused, or applied and reported as failed |
| Cluster.Api.CopyConfigs | linkerd/flagger/pkg/canary/deployment_controller.go:103-110 | The first part of a promotion: the primary's configs get the data of the target's, its template stays; applied, refused, or applied and reported as failed |
| Cluster.Api.Promote | linkerd/flagger/pkg/canary/deployment_controller.go:112-150 | The second part of a promotion: the primary gets the target's template; applied, refused, or applied and reported as failed |
| Cluster.Api.ScaleToZero | linkerd/flagger/pkg/canary/deployment_controller.go:163-178 | Replicas become 0; applied, refused, or applied and reported as failed |
| Cluster.Api.ScaleFromZero | linkerd/flagger/pkg/canary/deployment_controller.go:180-200 | Replicas become 1 if they were 0 and stay otherwise; applied, refused, or applied and reported as failed |
| Cluster.Api.SyncStatus | linkerd/flagger/pkg/canary/status.go:32-67 | The status records phase, target hash and config checksums, counters reset; applied, refused, or applied and reported as failed |
| Cluster.Api.SetStatusPhase | linkerd/flagger/pkg/canary/status.go:143-180 | The phase write with its resets; applied, refused, or applied and reported as failed |
| Cluster.Api.SetStatusWeight | linkerd/flagger/pkg/canary/status.go:93-115 | The weight write; applied, refused, or applied and reported as failed |
| Cluster.Api.SetStatusIterations | linkerd/flagger/pkg/canary/status.go:117-141 | The iterations write; applied, refused, or applied and reported as failed |
| Cluster.Api.SetStatusFailedChecks | linkerd/flagger/pkg/canary/status.go:69-91 | The failed-checks write; applied, refused, or applied and reported as failed |
| Cluster.Api.SetRoutes | linkerd/flagger/pkg/router/istio.go:327-404 | The router as the scheduler sees it: stores the pair, and the mirror flag if it can; nothing for the kubernetes provider |
| CanaryStatus.Amend | linkerd/flagger/pkg/canary/status.go:32-180 | Each setter assigns its fields as told, with the resets of weight and iterations, the copy of the applied spec to the promoted one for Initialized and Succeeded, and the verdict of the phase, and changes no other field |
| CanaryStatus.CanaryResource.UpdateStatus | linkerd/flagger/pkg/canary/status.go:256-257 | An update is accepted exactly if it was made from the newest version |
| CanaryStatus.CanaryResource.TryUpdate | linkerd/flagger/pkg/canary/status.go:34-66 | One attempt among other writers: an accepted update is the write applied to the version it replaces |
| CanaryStatus.CanaryResource.RetryOnConflict | linkerd/flagger/pkg/canary/status.go:69-91 | With other writers between the attempts: a success stores exactly one version, the write applied to its predecessor; a failure stores nothing; nothing of the others is lost |
| CanaryStatus.ConditionTracksPhase | linkerd/flagger/pkg/canary/status.go:193-250 | After any sequence of writes the Promoted condition names the phase, is True exactly for Initialized and Succeeded and False exactly for Failed, and its transition time is that of the last change of the verdict |
| TrackedConfigs.ChangedExactly | linkerd/flagger/pkg/canary/config_tracker.go:263-292 | Against a snapshot, a change is reported exactly if the data of a tracked object differs or an object has started or ceased to be tracked |
| TrackedConfigs.ChangeIsNoticedExactly | linkerd/flagger/pkg/canary/config_tracker.go:263-292 | Told from the objects: a change against a snapshot of earlier objects and template is noticed exactly if some object is mentioned, there, not annotated with disable and (for a Secret) Opaque, basic-auth, ssh-auth or TLS before or now but not both, or both and its data differ |
| TrackedConfigs.FirstSnapshotExactly | linkerd/flagger/pkg/canary/config_tracker.go:263-276 | Without a snapshot it is noticed exactly if there is such an object at all |
| TrackedConfigs.Store.HasConfigChanged | linkerd/flagger/pkg/canary/config_tracker.go:263-292 | Size comparison and one-way lookup decide inequality of the two maps, and with it whether a dependency has changed since the snapshot; a failed query is an error |
| TrackedConfigs.LookUp | linkerd/flagger/pkg/canary/config_tracker.go:282-289 | The lookup finds no difference exactly if every current config is recorded with its checksum |
| TrackedConfigs.SameSizeAgreement | linkerd/flagger/pkg/canary/config_tracker.go:278-289 | Why that suffices: maps of one size, one agreeing with the other on its keys, are equal |
| TrackedConfigs.Store.GetTargetConfigs | linkerd/flagger/pkg/canary/config_tracker.go:125-237 | Scanning volumes, projected sources and all containers and reading each name in any order gives exactly the mentioned objects that are there, not annotated with disable and (for Secrets) of one of four types, each under its key with the checksum of its data; or an error, exactly if the last mention of a missing object makes it mandatory |
| TrackedConfigs.TrackedExactly | linkerd/flagger/pkg/canary/config_tracker.go:65-123 | The same for any list of mentions |
| TrackedConfigs.FailsExactly | linkerd/flagger/pkg/canary/config_tracker.go:207-234 | The same for the error |
| PodSpecs.VolumesMention | linkerd/flagger/pkg/canary/config_tracker.go:154-177 | What volumes mention: the ConfigMap and the Secret of each, and of each projected source |
| PodSpecs.ContainersMention | linkerd/flagger/pkg/canary/config_tracker.go:178-204 | What containers mention: of each env and envFrom entry the ConfigMap, or the Secret if there is none |
| TrackedConfigs.Store.Query | linkerd/flagger/pkg/canary/config_tracker.go:207-234 | The reading part of it |
| TrackedConfigs.LastMentionDecides | linkerd/flagger/pkg/canary/config_tracker.go:158-205 | Exactly the mentioned names are looked up, and the last mention decides whether an object is mandatory |
| TrackedConfigs.Store.GetConfigRefs | linkerd/flagger/pkg/canary/config_tracker.go:247-259 | The snapshot holds the checksum of each tracked object under its key |
| TrackedConfigs.Store.CreatePrimaryConfigs | linkerd/flagger/pkg/canary/config_tracker.go:296-380 | The store after upserting copies in some order of the tracked objects, all of them on success |
| ConfigCopies.CopiedExactly | linkerd/flagger/pkg/canary/config_tracker.go:296-380 | Without a clash of names, whatever the order: tracked objects as before, each copy under the name with -primary and with its source's data and type but without its annotation, everything else as before |
| ConfigCopies.CarriesExactly | linkerd/flagger/pkg/canary/config_tracker.go:296-380 | With clashes: in a given order every copy gets the data of its original exactly if, wherever a copy is made over an object that has yet to be copied, the data agree |
| ConfigCopies.AllOrdersCarryExactly | linkerd/flagger/pkg/canary/config_tracker.go:297 | Every order of the copies does so exactly if clashing names have the same data; the order is that of a map |
| ConfigCopies.LongestFirstCarries | linkerd/flagger/pkg/canary/config_tracker.go:297 | An order with longer names first always does |
| ConfigCopies.TargetKeepsExactly | linkerd/flagger/pkg/canary/config_tracker.go:304-327 | Whatever the order, the target's own objects all keep their data exactly if clashing names have the same data |
| TrackedConfigs.IntactExactlyIfHarmless | linkerd/flagger/pkg/canary/config_tracker.go:383-456 | For a template without init containers: every mention leads to the data of its original exactly if the order was such a one |
| TrackedConfigs.PrimaryConfigsAreIntact | linkerd/flagger/pkg/canary/config_tracker.go:383-456 | After copying and renaming, every tracked mention in volumes, projected sources and regular containers is renamed once and leads to an object with the same data; all others are untouched |
| TrackedConfigs.IntactExactly | linkerd/flagger/pkg/canary/config_tracker.go:422-453 | This extends to the whole template exactly if no init container mentions a tracked object |
| TrackedConfigs.Store.PreparePrimary | linkerd/flagger/pkg/canary/deployment_controller.go:83-115 | The whole sequence on one store and template: find, copy, rename |
| PodSpecs.PodSpec.ApplyPrimaryConfigs | linkerd/flagger/pkg/canary/config_tracker.go:383-456 | The nested loops rename each tracked mention in place exactly once, leave all others and the init containers alone |
| PodSpecs.PodMentions | linkerd/flagger/pkg/canary/config_tracker.go:383-456 | The mentions of a renamed template are the renamed mentions, position by position |
| PodSpecs.KeyIsInjective | linkerd/flagger/pkg/canary/config_tracker.go:60-63 | A key tells the kind and the name |
| Istio.Router.Reconcile | linkerd/flagger/pkg/router/istio.go:114-280 | Creates or updates the VirtualService if it differs in more than weights and mirror, saving the spec it replaces; afterwards it announces the service and divides its requests as Istio.Divided says; errors for delegation with hosts and failing calls |
| Istio.Router.MakeHosts | linkerd/flagger/pkg/router/istio.go:123-135 | The hosts, with the service's own added unless it or a wildcard is there |
| Istio.Router.GetRoutes | linkerd/flagger/pkg/router/istio.go:282-325 | The nested loops read the last rule that has the canary, and the last weights in it; an error if both are zero |
| Istio.Router.SetRoutes | linkerd/flagger/pkg/router/istio.go:327-404 | Replaces the rules: for every request, the first rule that takes it leads to primary and canary if the test selects it (or there is no test), to the primary only otherwise, and no rule takes a request the service and the test do not; each destination has the weight of its service, and the mirror goes to the canary |
| Istio.Router.Finalize | linkerd/flagger/pkg/router/istio.go:406-441 | Puts the saved spec back, kubectl's copy first; an error if it cannot be read |
| Istio.InSyncDivides | linkerd/flagger/pkg/router/istio.go:205-276 | Every record in sync divides the requests so, whatever weights it holds |
| Istio.AnnotationsSurvive | linkerd/flagger/pkg/router/istio.go:247-276 | The user's annotations survive any sequence of calls |
| Istio.RoutesReadBack | linkerd/flagger/pkg/router/istio.go:282-404 | GetRoutes returns what SetRoutes stored; the mirror flag only without an A/B test |
| Istio.ReconcileIsIdle | linkerd/flagger/pkg/router/istio.go:240-247 | Reconcile changes nothing exactly if the record differs from the generated one in weights and mirror at most |
| Istio.RoutesSurviveReconciliation | linkerd/flagger/pkg/router/istio.go:240-404 | Over any number of reconciliations and weight changes, some of them failing, the weights read are those last written |
| Istio.RouterRefinesRollout | linkerd/flagger/pkg/router/istio.go:282-404 | This router is a mesh router as the rollout machine assumes it: each call keeps the correspondence of the record with the routes of the machine |
| Istio.NewServiceFavoursPrimary | linkerd/flagger/pkg/router/istio.go:205-226 | A newly created VirtualService has all traffic on the primary |
| Istio.OriginalIsRestored | linkerd/flagger/pkg/router/istio.go:247-276 | A VirtualService that was there before and differed is given back with its own spec after any number of calls |
| Istio.RestoredExactly | linkerd/flagger/pkg/router/istio.go:240-276 | The spec comes back exactly if: kubectl's copy is the spec itself; without such a copy, out of sync at first, and no delegation or no hosts and gateways; in sync, and saved before as it is, or never weighted, or last weighted with the rules it had |
| Istio.OnlyRulesChange | linkerd/flagger/pkg/router/istio.go:240-404 | A record in sync is left as it was, with the rules of the last weights written, if any |
| Istio.KubectlRecordIsRestored | linkerd/flagger/pkg/router/istio.go:415-422 | A record applied with kubectl goes back to what kubectl applied |
| Istio.ChangedCanaryForgetsOriginal | linkerd/flagger/pkg/router/istio.go:254-267 | After a change of the Canary and any further calls, what comes back is the original if the generated spec did not change, and otherwise the spec the old Canary last left |
| MatchConditions.MergeMatchConditions | linkerd/flagger/pkg/router/istio.go:444-465 | The array filled with a running index holds the merged table |
| MatchConditions.EntryOfPair | linkerd/flagger/pkg/router/istio.go:449-462 | Entry i * &#124;defaults&#124; + j is made from the pair (i, j) |
| MatchConditions.PairOfEntry | linkerd/flagger/pkg/router/istio.go:449-462 | Every entry is made from some pair |
| MatchConditions.MergeMeans | linkerd/flagger/pkg/apis/istio/v1alpha3/virtual_service.go:288-293 | For any two conditions: the merged one holds for a request exactly if the headers and labels of the first hold and of the second all that the first does not override; that is all of it exactly if nothing is set on both sides |
| MatchConditions.MergedMeansBoth | linkerd/flagger/pkg/router/istio.go:444-465 | The merged list takes a request exactly if some canary and some default condition take it; in full if canary conditions set only headers and labels or there are no defaults |
| MatchConditions.MergedSelects | linkerd/flagger/pkg/router/istio.go:444-465 | With overrides or without: the merged list takes a request exactly if headers and labels of some canary condition and all that they do not override of some default condition hold |
| MatchConditions.SelectsBoth | linkerd/flagger/pkg/router/istio.go:444-465 | Without overrides that is: some canary condition, in its reduced form, and some default condition take it |
| MatchConditions.TwoRulesTakeTheDefaults | linkerd/flagger/pkg/router/istio.go:368-397 | The two rules of an A/B test together take the requests the defaults take |
| MatchConditions.CanaryUriIsDropped | linkerd/flagger/pkg/router/istio.go:449-462 | A URI of a canary condition is lost as soon as there are defaults |
| MatchConditions.DefaultHeadersAreOverridden | linkerd/flagger/pkg/router/istio.go:453-455 | Headers on both sides: the canary takes requests the defaults exclude |
| Ingress.IngressRouter.GetRoutes | linkerd/flagger/pkg/router/ingress.go:121-160 | Reads an A/B selection, or the decimal weight; an error if it is not a number |
| Ingress.IngressRouter.SetRoutes | linkerd/flagger/pkg/router/ingress.go:162-210 | Writes the weight, or cookie, header, value and pattern of the selection, and marks the ingress as a canary; parks it at weight zero or below: weight 0 and no selection; nothing if a call fails |
| Ingress.IngressRouter.MakeAnnotations | linkerd/flagger/pkg/router/ingress.go:212-230 | Drops what belongs to the toolkit, kubectl and the canary, and parks |
| Ingress.IngressRouter.MakeHeaderAnnotations | linkerd/flagger/pkg/router/ingress.go:232-260 | Drops by value, then sets what the selection has |
| Ingress.IngressRouter.Reconcile | linkerd/flagger/pkg/router/ingress.go:42-119 | The rules of the apex ingress, path by path, with the -canary service in place of the apex service; a new canary ingress is parked, an existing one keeps its annotations; an error if no path leads to the apex service or a call fails |
| IngressRules.RedirectBackends | linkerd/flagger/pkg/router/ingress.go:58-72 | The nested loops lead exactly the paths of one service to another, and tell whether there were any |
| IngressRules.RedirectedMeans | linkerd/flagger/pkg/router/ingress.go:58-72 | Path by path: those of the old service lead to the new one, everything else is as it was |
| IngressRules.NothingLeadsBack | linkerd/flagger/pkg/router/ingress.go:58-72 | After that no path leads to the old service |
| IngressRules.DoubledMeans | linkerd/flagger/pkg/router/skipper.go:79-92 | Position by position: paths stay in place, those of the apex service now leading to the primary, and the copies for the canary follow in the same order |
| IngressRules.DoubleBackends | linkerd/flagger/pkg/router/skipper.go:79-92 | The nested loops lead the paths of the apex service to the primary and append a double of each for the canary, in order and with nothing else changed |
| Ingress.Choose | linkerd/flagger/pkg/router/ingress.go:178-192 | The selection made from the header conditions: the last one that names the cookie decides on it, the last one that names a header on header, value and pattern, all from one of its headers |
| Ingress.ForeignExactly | linkerd/flagger/pkg/router/ingress.go:212-260 | Which annotations other than the router's own a weight change drops: at zero those of the toolkit and kubectl, in an A/B test those of the toolkit and those whose value mentions the canary key; none is changed |
| Ingress.WeightsReadBack | linkerd/flagger/pkg/router/ingress.go:121-210 | A canary weight is read back, with the rest on the primary, exactly if it is not negative |
| Ingress.SelectionReadsBack | linkerd/flagger/pkg/router/ingress.go:134-141 | An A/B selection by cookie or header is all or nothing: within 0..100 exactly 0 and 100 are read back |
| Ingress.ABReadsBackExactly | linkerd/flagger/pkg/router/ingress.go:134-141 | From a parked ingress, for every A/B test: a weight within 0..100 is read back exactly if it is 0, or 100 and the conditions name a header or the cookie |
| Ingress.EmptySelectionStaysPrimary | linkerd/flagger/pkg/router/ingress.go:173-207 | An A/B test whose conditions name neither never reaches the canary: after any weight changes all traffic is read on the primary |
| Ingress.SteppedPromotionStalls | linkerd/flagger/pkg/controller/scheduler.go:451-477 | Stepwise promotion of an A/B test goes on promoting for ever exactly if the step is below 100 |
| Ingress.ForeignAnnotationsSurvive | linkerd/flagger/pkg/router/ingress.go:212-260 | No sequence of weight changes touches an annotation that is not the router's |
| Ingress.MentionOfCanaryIsDropped | linkerd/flagger/pkg/router/ingress.go:235-239 | An A/B test drops an annotation because of its value |
| Decimal.AtoiOfItoa | linkerd/flagger/pkg/router/ingress.go:146-154 | Reading a written number gives it back, within 64 bits |
| Skipper.InsertPredicate | linkerd/flagger/pkg/router/skipper.go:255-269 | The loop keeps the trimmed, non-empty predicates that are no control predicates, after the inserted one |
| Skipper.InsertedParts | linkerd/flagger/pkg/router/skipper.go:255-269 | After an insertion the parts are the control predicate and the user's predicates, in order |
| Skipper.LastInsertionCounts | linkerd/flagger/pkg/router/skipper.go:255-269 | Inserting twice is inserting the second one |
| Skipper.OneControlInFront | linkerd/flagger/pkg/router/skipper.go:176-198 | After any weight changes exactly one control predicate stands in front, False() if the last weight is zero and Weight(100) otherwise, and the user's predicates follow in order |
| Skipper.KeptAsWrittenExactly | linkerd/flagger/pkg/router/skipper.go:255-269 | A text is kept as it is written exactly if it is not empty, no control predicate, trimmed, and has no separator inside |
| Skipper.QuotedSeparatorIsSplit | linkerd/flagger/pkg/router/skipper.go:255-269 | One with a separator inside becomes two |
| Skipper.Drive | linkerd/flagger/pkg/router/skipper.go:63-209 | Over any sequence of reconciliations with unchanged apex rules and weight changes, some of them failing, the pair read is the one last written |
| Skipper.SkipperRouter.MakeAnnotations | linkerd/flagger/pkg/router/skipper.go:225-236 | Weights and an enabling predicate, all else kept |
| Skipper.SkipperRouter.SetRoutes | linkerd/flagger/pkg/router/skipper.go:176-209 | The weights given, which GetRoutes then reads back, each under the name of its service, and the control predicate for the canary weight; nothing if a call fails |
| Skipper.SkipperRouter.GetRoutes | linkerd/flagger/pkg/router/skipper.go:144-174 | Both weights, or an error if one is missing |
| Skipper.SkipperRouter.Reconcile | linkerd/flagger/pkg/router/skipper.go:63-142 | A new ingress, or one whose rules are not the doubled rules of the apex ingress, starts from the apex ingress and reads 100/0, each apex path leading to the primary with a double for the canary; another one is left alone; an error if a call fails |
| Predicates.PartsOfJoin | linkerd/flagger/pkg/router/skipper.go:255-269 | Splitting and trimming undoes joining, for trimmed parts without a separator inside |
| Metadata.FilterMetadata | linkerd/flagger/pkg/router/util.go:26-35 | Keeps exactly the entries without the toolkit's mark |
| JobTable.Drive | linkerd/flagger/pkg/controller/scheduler.go:92-139 | Any sequence of additions, updates, deletions and schedulings: every job there ever was started once and is running in the table or stopped exactly once; right after a scheduling the table has exactly one running job for each known canary at its present interval |
| JobTable.Scheduler.ScheduleCanaries | linkerd/flagger/pkg/controller/scheduler.go:92-139 | The table is brought in step, jobs that still fit are kept |
| JobTable.Scheduler.ScheduleOne | linkerd/flagger/pkg/controller/scheduler.go:104-122 | A canary without a fitting job gets a new one, and its old one is stopped |
| JobTable.Scheduler.Cleanup | linkerd/flagger/pkg/controller/scheduler.go:134-139 | Jobs without a canary are stopped and removed, the others stay |
| JobTable.CanaryJob.Stop | linkerd/flagger/pkg/controller/job.go:48-51 | Closes the channel; requires that it is open |
| JobTable.GetAnalysisInterval | linkerd/flagger/pkg/apis/flagger/v1beta1/canary.go:418-433 | The given interval if it is at least ten seconds, ten seconds if it is shorter, sixty if there is none or it cannot be read |

## Left out

- HTTP, metrics queries, notifications, events, logging and the metrics recorder: their answers are inputs of a tick.
- Deletion of a Canary (Terminating, Terminated) beyond the Istio `Finalize`.
- The DaemonSet and Service controllers, autoscalers, port discovery, labels and owner references of created objects.
- The other routers: they keep the contract `Cluster.Api.SetRoutes` states, so only three are modelled in detail.
- Destination rules of the Istio router: written once and compared whole.
- The difference between absent and empty lists in the specs the Istio router compares.
- Ticks of the same Canary that overlap, and edits of the target in the middle of a tick: a tick is atomic towards edits, though not towards failures.
- The text of the Promoted condition.
- The number of retries of the status writers: a parameter of `CanaryStatus.CanaryResource.RetryOnConflict`.
- The goroutine of a job and its ticker: `JobTable.CanaryJob` counts starts and stops only, and canaries are not added or removed while a scheduling is under way.
- The warning about canaries that share a target.
- PromotionIntegrity.PromotionsAreFaithful: with skipAnalysis only for runs without edits while promoting, because a tick of skipAnalysis in phase Promoting or Finalising copies the target without the revision check that precedes it during an analysis; `SkipPromotesFaithfullyExactly` has the exact condition.
- EarnedPromotion.PromotionIsEarned: does not cover skipAnalysis, which promotes without analysis by design.
- ReplicaSafety.CanaryIsFed: excludes half-done scaling, and with skipAnalysis a Succeeded write that is not done; `WakeTearsExactly`, `RollBackTearsExactly` and `SkipStarvesExactly` say which of these failures do harm.
- RouteSafety.TrafficIsSafe: with skipAnalysis it excludes the one failure that `RouteSafety.LostSuccessBreaksSafety` shows to break it.
- Reach.SucceedsExactly: not stated for skipAnalysis, where the ramp plays no part; `Termination.SkippingTick` says how such a rollout ends.
- Cluster.Api.CopyConfigs: copies all configs or none, so that a failure after some of several configs have been copied is not one of its outcomes.
- CanaryStatus.CanaryResource.UpdateStatus: leaves out that a status update rejected for its API version is preceded by an upgrade of the whole resource and sent again.
- MatchConditions.MergedMeansBoth: regular expressions and case folding are parameters of the mesh.
- Ingress.ForeignAnnotationsSurvive: one selection for the whole sequence of weight changes.
