// When the configs of the target differ from those on record (HasConfigChanged in
// pkg/canary/config_tracker.go); TrackedConfigs has the code that decides it.

module ConfigTracker {
  import opened Options
  import opened CanaryStatus

  /** A status without a record stands for a record without entries. */
  predicate HasConfigChanged(tracked: Option<Checksums>, current: Checksums) {
    match tracked
    case None => current != map[]
    case Some(recorded) => recorded != current
  }
}
