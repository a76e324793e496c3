// When the target has a revision that has to be rolled out (pkg/canary/spec.go).

module CanarySpec {
  import opened Options
  import opened CanaryStatus

  /** `hash` stands for computeHash of the pod template. A return to the promoted revision
      is deliberately not a change. */
  predicate HasSpecChanged(status: Status, hash: string) {
    status.lastAppliedSpec.None? ||
    (status.lastPromotedSpec != Some(hash) && status.lastAppliedSpec != Some(hash))
  }
}
