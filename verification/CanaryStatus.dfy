// The status sub-resource of a Canary object and the writers that change it
// (pkg/canary/status.go, pkg/apis/flagger/v1beta1/status.go).

module CanaryStatus {
  import opened Options

  datatype Phase =
    | Unset
    | Initializing
    | Initialized
    | Waiting
    | Progressing
    | WaitingPromotion
    | Promoting
    | Finalising
    | Succeeded
    | Failed
    | Terminating
    | Terminated

  datatype Verdict = Unknown | True | False

  /** The Promoted condition; its message is left out. */
  datatype Condition = Condition(
    status: Verdict,
    reason: Phase,
    lastUpdateTime: nat,
    lastTransitionTime: nat)

  /** Config name to checksum. */
  type Checksums = map<string, string>

  datatype Status = Status(
    phase: Phase,
    failedChecks: int,
    canaryWeight: int,
    iterations: int,
    trackedConfigs: Option<Checksums>,
    lastAppliedSpec: Option<string>,
    lastPromotedSpec: Option<string>,
    lastTransitionTime: nat,
    promoted: Option<Condition>)

  /** One value per setter of status.go, with what the setter is given. */
  datatype Write =
    | Sync(phase: Phase, weight: int, failedChecks: int, iterations: int, hash: string, configs: Checksums)
    | SetFailedChecks(checks: int)
    | SetWeight(canaryWeight: int)
    | SetIterations(count: int)
    | SetPhase(to: Phase)
    | SetInitializing

  function VerdictOf(phase: Phase): Verdict {
    match phase
    case Initialized | Succeeded => True
    case Failed => False
    case _ => Unknown
  }

  /** The phase a write stores, if it stores one. */
  function PhaseWritten(w: Write): Option<Phase> {
    match w
    case Sync(phase, _, _, _, _, _) => Some(phase)
    case SetPhase(to) => Some(to)
    case SetInitializing => Some(Initializing)
    case _ => None
  }

  /** None stands for the `false` answer: the condition on record already says so. */
  function MakeStatusConditions(current: Option<Condition>, phase: Phase, now: nat): (made: Option<Condition>) {
    var verdict := VerdictOf(phase);
    if current.Some? && current.value.status == verdict && current.value.reason == phase then
      None
    else if current.Some? && current.value.status == verdict then
      Some(Condition(verdict, phase, now, current.value.lastTransitionTime))
    else
      Some(Condition(verdict, phase, now, now))
  }

  function Restamp(s: Status, phase: Phase, now: nat): Status {
    var made := MakeStatusConditions(s.promoted, phase, now);
    s.(promoted := if made.Some? then made else s.promoted)
  }

  /** setPhaseInitializing skips the update when the condition would not change. */
  predicate Skipped(s: Status, w: Write, now: nat) {
    w.SetInitializing? && MakeStatusConditions(s.promoted, Initializing, now).None?
  }

  /** The status that replaces `s` when write `w` is accepted at time `now`. */
  function Written(s: Status, w: Write, now: nat): Status {
    var s' := s.(lastTransitionTime := now);
    match w
    case Sync(phase, weight, failed, iterations, hash, configs) =>
      Restamp(s'.(phase := phase, canaryWeight := weight, failedChecks := failed, iterations := iterations,
                  lastAppliedSpec := Some(hash), trackedConfigs := Some(configs)), phase, now)
    case SetFailedChecks(checks) => s'.(failedChecks := checks)
    case SetWeight(weight) => s'.(canaryWeight := weight)
    case SetIterations(count) => s'.(iterations := count)
    case SetInitializing => if Skipped(s, w, now) then s else Restamp(s'.(phase := Initializing), Initializing, now)
    case SetPhase(to) =>
      var kept := if to == Progressing || to == Waiting then s' else s'.(canaryWeight := 0, iterations := 0);
      var promoted := if to == Initialized || to == Succeeded
                      then kept.(lastPromotedSpec := s.lastAppliedSpec) else kept;
      Restamp(promoted.(phase := to), to, now)
  }

  /** The fields a setter owns: everything else must be as in the version it replaces. */
  ghost predicate ChangesOnlyOwned(s: Status, s': Status, w: Write) {
    && (!w.Sync? && !w.SetFailedChecks? ==> s'.failedChecks == s.failedChecks)
    && (!w.Sync? ==> s'.lastAppliedSpec == s.lastAppliedSpec && s'.trackedConfigs == s.trackedConfigs)
    && (!w.SetPhase? ==> s'.lastPromotedSpec == s.lastPromotedSpec)
    && (w.SetPhase? ==> s'.lastPromotedSpec in {s.lastPromotedSpec, s.lastAppliedSpec})
    && (w.SetFailedChecks? || w.SetWeight? || w.SetIterations? ==> s'.phase == s.phase && s'.promoted == s.promoted)
    && (w.SetFailedChecks? || w.SetIterations? || w.SetInitializing? ==> s'.canaryWeight == s.canaryWeight)
    && (w.SetFailedChecks? || w.SetWeight? || w.SetInitializing? ==> s'.iterations == s.iterations)
    && (w.SetPhase? && w.to in {Progressing, Waiting} ==>
          s'.canaryWeight == s.canaryWeight && s'.iterations == s.iterations)
  }

  /** The verdict a phase stands for. */
  predicate Says(verdict: Verdict, phase: Phase) {
    && (verdict.True? <==> phase == Initialized || phase == Succeeded)
    && (verdict.False? <==> phase == Failed)
  }

  /** What a setter puts into the fields it owns. */
  ghost predicate SetsOwned(s: Status, s': Status, w: Write, now: nat) {
    && (w.Sync? ==>
          && s'.phase == w.phase && s'.canaryWeight == w.weight && s'.failedChecks == w.failedChecks
          && s'.iterations == w.iterations
          && s'.lastAppliedSpec == Some(w.hash) && s'.trackedConfigs == Some(w.configs))
    && (w.SetFailedChecks? ==> s'.failedChecks == w.checks)
    && (w.SetWeight? ==> s'.canaryWeight == w.canaryWeight)
    && (w.SetIterations? ==> s'.iterations == w.count)
    && (w.SetPhase? ==>
          && s'.phase == w.to
          && (w.to !in {Progressing, Waiting} ==> s'.canaryWeight == s'.iterations == 0)
          && s'.lastPromotedSpec == if w.to in {Initialized, Succeeded} then s.lastAppliedSpec else s.lastPromotedSpec)
    && (w.Sync? || w.SetPhase? ==>
          && s'.promoted.Some? && s'.promoted.value.reason == s'.phase
          && Says(s'.promoted.value.status, s'.phase))
    && (w.SetInitializing? && s' != s ==> s'.phase == Initializing)
    && (s' != s ==> s'.lastTransitionTime == now)
  }

  /** Assigns the fields of a copied status one by one, as each setter does. */
  method Amend(cd: Status, w: Write, now: nat) returns (copy: Status)
    ensures copy == Written(cd, w, now)
    ensures ChangesOnlyOwned(cd, copy, w) && SetsOwned(cd, copy, w, now)
  {
    copy := cd;
    if Skipped(cd, w, now) {
      return;
    }
    copy := copy.(lastTransitionTime := now);
    match w {
      case Sync(phase, weight, failed, iterations, hash, configs) =>
        copy := copy.(phase := phase);
        copy := copy.(canaryWeight := weight);
        copy := copy.(failedChecks := failed);
        copy := copy.(iterations := iterations);
        copy := copy.(lastAppliedSpec := Some(hash));
        copy := copy.(trackedConfigs := Some(configs));
        var made := MakeStatusConditions(cd.promoted, phase, now);
        if made.Some? {
          copy := copy.(promoted := made);
        }
      case SetFailedChecks(checks) => copy := copy.(failedChecks := checks);
      case SetWeight(weight) => copy := copy.(canaryWeight := weight);
      case SetIterations(count) => copy := copy.(iterations := count);
      case SetPhase(to) =>
        copy := copy.(phase := to);
        if to != Progressing && to != Waiting {
          copy := copy.(canaryWeight := 0);
          copy := copy.(iterations := 0);
        }
        if to == Initialized || to == Succeeded {
          copy := copy.(lastPromotedSpec := cd.lastAppliedSpec);
        }
        var made := MakeStatusConditions(copy.promoted, to, now);
        if made.Some? {
          copy := copy.(promoted := made);
        }
      case SetInitializing =>
        copy := copy.(promoted := MakeStatusConditions(cd.promoted, Initializing, now));
        copy := copy.(phase := Initializing);
    }
  }

  // ---------------------------------------------------------------------------
  // Retry on conflict
  // ---------------------------------------------------------------------------

  /** What surrounds one attempt of RetryOnConflict: the clock, the versions other
      writers store between this attempt's read and its update, whether the re-read
      succeeds, and whether the update reaches the API server. */
  datatype Attempt = Attempt(now: nat, foreign: seq<Status>, readable: bool, reachable: bool)

  datatype Ending = Accepted | Conflict | Idle | Unreachable

  /** All versions stored by others up to and including the given attempts. */
  function Landed(attempts: seq<Attempt>): seq<Status> {
    if attempts == [] then [] else Landed(attempts[..|attempts| - 1]) + attempts[|attempts| - 1].foreign
  }

  /** The versions after the foreign ones of the given attempts. */
  function Interleaved(first: seq<Status>, attempts: seq<Attempt>): seq<Status> {
    first + Landed(attempts)
  }

  lemma LandedNext(first: seq<Status>, attempts: seq<Attempt>, i: nat)
    requires i < |attempts|
    ensures Interleaved(first, attempts[..i + 1]) == Interleaved(first, attempts[..i]) + attempts[i].foreign
  {
    assert attempts[..i + 1][..i] == attempts[..i];
  }

  function Last(versions: seq<Status>): Status
    requires versions != []
  {
    versions[|versions| - 1]
  }

  /** The newest version has been replaced with the write applied to it, unless the write was
      found to be superfluous. */
  ghost predicate WrittenOnce(before: seq<Status>, w: Write, now: nat, after: seq<Status>) {
    || (before != [] && after == before + [Written(Last(before), w, now)])
    || (after == before && exists seen <- before :: Skipped(seen, w, now))
  }

  /** The object behind the API server: `versions[v]` is the status at resource version `v`. */
  class CanaryResource {
    var versions: seq<Status>

    constructor (first: Status)
      ensures versions == [first]
    {
      versions := [first];
    }

    /** Optimistic concurrency: only an update of the newest version is accepted. */
    method UpdateStatus(base: nat, next: Status) returns (accepted: bool)
      modifies this
      ensures accepted <==> base + 1 == |old(versions)|
      ensures versions == old(versions) + if accepted then [next] else []
    {
      accepted := base + 1 == |versions|;
      if accepted {
        versions := versions + [next];
      }
    }

    method StoreForeign(foreign: seq<Status>)
      modifies this
      ensures versions == old(versions) + foreign
    {
      versions := versions + foreign;
    }

    /** One attempt: others store their versions, then the amended copy is sent. It is
        accepted only if it was made from what is by then the newest version. */
    method TryUpdate(cd: Status, version: nat, w: Write, attempt: Attempt) returns (e: Ending)
      requires version < |versions| && versions[version] == cd
      modifies this
      ensures old(versions) <= versions && versions[version] == cd
      ensures var before := old(versions) + attempt.foreign;
              if e == Accepted || e == Idle then WrittenOnce(before, w, attempt.now, versions) else versions == before
    {
      StoreForeign(attempt.foreign);
      var copy := Amend(cd, w, attempt.now);
      if Skipped(cd, w, attempt.now) {
        assert versions[version] == cd;
        return Idle;
      }
      if !attempt.reachable {
        return Unreachable;
      }
      var accepted := UpdateStatus(version, copy);
      return if accepted then Accepted else Conflict;
    }

    /** Every setter of status.go: amend a copy, update, and on conflict re-read and start
        over. `used` counts the attempts made. A success stores exactly one version, and it
        is the write applied to the version it replaced; a failure stores nothing. */
    method RetryOnConflict(cd: Status, version: nat, w: Write, attempts: seq<Attempt>)
      returns (ok: bool, used: nat)
      requires version < |versions| && versions[version] == cd
      modifies this
      ensures used <= |attempts| && (ok ==> used > 0)
      ensures var before := Interleaved(old(versions), attempts[..used]);
              if ok then WrittenOnce(before, w, attempts[used - 1].now, versions) else versions == before
    {
      var cd: Status, version: nat := cd, version;
      var firstTry := true;
      ok, used := false, 0;
      while used < |attempts|
        invariant used <= |attempts| && !ok
        invariant versions == Interleaved(old(versions), attempts[..used])
        invariant version < |versions| && versions[version] == cd
      {
        var attempt := attempts[used];
        if !firstTry {
          if !attempt.readable {
            return;
          }
          cd, version := versions[|versions| - 1], |versions| - 1;
        }
        LandedNext(old(versions), attempts, used);
        var ending := TryUpdate(cd, version, w, attempt);
        firstTry := false;
        used := used + 1;
        if ending != Conflict {
          ok := ending != Unreachable;
          return;
        }
      }
    }
  }

  // ---------------------------------------------------------------------------
  // What the writers keep
  // ---------------------------------------------------------------------------

  datatype Stamped = Stamped(write: Write, at: nat)

  /** The status after the given accepted writes, oldest first. */
  function Replay(s: Status, ws: seq<Stamped>): Status {
    if ws == [] then s
    else Written(Replay(s, ws[..|ws| - 1]), ws[|ws| - 1].write, ws[|ws| - 1].at)
  }

  /** The last phase stored by a sequence of writes. */
  function LastPhase(ws: seq<Stamped>): Option<Phase> {
    if ws == [] then None
    else
      var p := PhaseWritten(ws[|ws| - 1].write);
      if p.Some? then p else LastPhase(ws[..|ws| - 1])
  }

  /** Write `i` stored a phase whose verdict differs from the verdict before it (or is the
      first verdict), and every phase stored since has the same verdict. */
  ghost predicate LastFlip(ws: seq<Stamped>, i: nat)
    requires i < |ws|
  {
    && PhaseWritten(ws[i].write).Some?
    && var verdict := VerdictOf(PhaseWritten(ws[i].write).value);
    && (LastPhase(ws[..i]).Some? ==> VerdictOf(LastPhase(ws[..i]).value) != verdict)
    && forall j | i <= j < |ws| && PhaseWritten(ws[j].write).Some? ::
         VerdictOf(PhaseWritten(ws[j].write).value) == verdict
  }

  /** What one write does to the condition. */
  lemma WrittenCondition(s: Status, w: Write, now: nat)
    requires s.promoted.Some? ==> s.promoted.value.reason == s.phase
    ensures var after, stored := Written(s, w, now), PhaseWritten(w);
            if stored.None? then after.phase == s.phase && after.promoted == s.promoted
            else
              && after.promoted.Some? && after.promoted.value.reason == after.phase == stored.value
              && Says(after.promoted.value.status, after.phase)
              && after.promoted.value.lastTransitionTime ==
                 if s.promoted.Some? && s.promoted.value.status == after.promoted.value.status
                 then s.promoted.value.lastTransitionTime else now
  {
  }

  /** The Promoted condition tells the phase, says True of an initialized or promoted canary, False
      of a failed one and Unknown of any other, and dates the last change of its verdict. */
  lemma {:induction false} ConditionTracksPhase(s: Status, ws: seq<Stamped>)
    requires s.promoted.None?
    ensures var r := Replay(s, ws);
            && (r.promoted.Some? <==> LastPhase(ws).Some?)
            && (r.promoted.Some? ==>
                  && r.promoted.value.reason == r.phase == LastPhase(ws).value
                  && (r.promoted.value.status == True <==> r.phase == Initialized || r.phase == Succeeded)
                  && (r.promoted.value.status == False <==> r.phase == Failed)
                  && exists i: nat | i < |ws| ::
                       LastFlip(ws, i) && ws[i].at == r.promoted.value.lastTransitionTime)
  {
    if ws != [] {
      var n := |ws| - 1;
      var init := ws[..n];
      ConditionTracksPhase(s, init);
      var before := Replay(s, init);
      WrittenCondition(before, ws[n].write, ws[n].at);
      if PhaseWritten(ws[n].write).None? {
        if before.promoted.Some? {
          var i: nat :| i < |init| && LastFlip(init, i) && init[i].at == before.promoted.value.lastTransitionTime;
          ExtendFlip(ws, i);
        }
      } else if before.promoted.Some? && before.promoted.value.status == VerdictOf(PhaseWritten(ws[n].write).value) {
        var i: nat :| i < |init| && LastFlip(init, i) && init[i].at == before.promoted.value.lastTransitionTime;
        FlipVerdict(init, i);
        ExtendFlip(ws, i);
      } else {
        assert LastFlip(ws, n);
      }
    }
  }

  lemma ExtendFlip(ws: seq<Stamped>, i: nat)
    requires ws != [] && i < |ws| - 1 && LastFlip(ws[..|ws| - 1], i)
    requires PhaseWritten(ws[|ws| - 1].write).Some? ==>
               VerdictOf(PhaseWritten(ws[|ws| - 1].write).value) == VerdictOf(PhaseWritten(ws[i].write).value)
    ensures LastFlip(ws, i)
  {
    var init := ws[..|ws| - 1];
    assert init[..i] == ws[..i];
    forall j | i <= j < |ws| && PhaseWritten(ws[j].write).Some?
      ensures VerdictOf(PhaseWritten(ws[j].write).value) == VerdictOf(PhaseWritten(ws[i].write).value)
    {
      if j < |init| {
        assert init[j] == ws[j];
      }
    }
  }

  lemma {:induction false} FlipVerdict(ws: seq<Stamped>, i: nat)
    requires i < |ws| && LastFlip(ws, i)
    ensures LastPhase(ws).Some? && VerdictOf(LastPhase(ws).value) == VerdictOf(PhaseWritten(ws[i].write).value)
  {
    var n := |ws| - 1;
    if PhaseWritten(ws[n].write).None? {
      var init := ws[..n];
      assert init[..i] == ws[..i];
      assert forall j | i <= j < |init| :: init[j] == ws[j];
      FlipVerdict(init, i);
    }
  }
}
