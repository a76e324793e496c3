// The objects a rollout acts on and the API calls that change them. A tick of the
// scheduler is a program over these calls; any call may fail.

module Cluster {
  import opened Options
  import opened CanaryStatus
  import opened Analysis

  /** A pod template (its hash) together with the configs it tracks. */
  datatype Revision = Revision(template: string, configs: Checksums)

  datatype Routes = Routes(primary: int, canary: int, mirrored: bool)

  const ALL_TO_PRIMARY := Routes(100, 0, false)
  const ALL_TO_CANARY := Routes(0, 100, false)

  /** Everything that persists between two ticks. */
  datatype World = World(
    status: Status,
    target: Revision,
    primary: Option<Revision>,
    replicas: nat,
    routes: Routes,
    clock: nat)

  datatype Call =
    | SetRoutes(routes: Routes)
    | CreatePrimary
    | CopyConfigs
    | Promote
    | ScaleToZero
    | ScaleFromZero
    | SyncStatus(syncedPhase: Phase)
    | SetStatusPhase(phase: Phase)
    | SetStatusWeight(weight: int)
    | SetStatusIterations(iterations: int)
    | SetStatusFailedChecks(failedChecks: int)

  /** Done: applied and reported. Refused: not applied. Lost: applied, but reported as an
      error (a response that got lost, or a later part of a compound call that failed). */
  datatype Outcome = Done | Refused | Lost

  function Put(w: World, write: Write): World {
    w.(status := Written(w.status, write, w.clock), clock := w.clock + 1)
  }

  /** The effect of a call that reaches its object. */
  function Apply(cfg: Config, c: Call, w: World): World {
    match c
    case SetRoutes(r) =>
      if cfg.provider.Kubernetes? then w
      else w.(routes := r.(mirrored := r.mirrored && cfg.provider.storesMirror))
    case CreatePrimary | Promote => w.(primary := Some(w.target))
    case CopyConfigs =>
      w.(primary := if w.primary.Some? then Some(w.primary.value.(configs := w.target.configs)) else None)
    case ScaleToZero => w.(replicas := 0)
    case ScaleFromZero => w.(replicas := if w.replicas > 0 then w.replicas else 1)
    case SyncStatus(phase) => Put(w, Sync(phase, 0, 0, 0, w.target.template, w.target.configs))
    case SetStatusPhase(phase) => Put(w, SetPhase(phase))
    case SetStatusWeight(weight) => Put(w, SetWeight(weight))
    case SetStatusIterations(n) => Put(w, SetIterations(n))
    case SetStatusFailedChecks(n) => Put(w, CanaryStatus.SetFailedChecks(n))
  }

  // ---------------------------------------------------------------------------
  // Programs of calls
  // ---------------------------------------------------------------------------

  datatype Program =
    | Halt
    | Do(call: Call, ok: Program, err: Program)

  function Head(faults: seq<Outcome>): Outcome {
    if faults == [] then Done else faults[0]
  }

  function Tail(faults: seq<Outcome>): seq<Outcome> {
    if faults == [] then [] else faults[1..]
  }

  function Effect(cfg: Config, c: Call, o: Outcome, w: World): World {
    if o.Refused? then w else Apply(cfg, c, w)
  }

  function Branch(p: Program, o: Outcome): Program
    requires p.Do?
  {
    if o.Done? then p.ok else p.err
  }

  /** Runs a program; the faults say, in order, how each attempted call ends. */
  function Exec(cfg: Config, p: Program, faults: seq<Outcome>, w: World): World {
    match p
    case Halt => w
    case Do(call, ok, err) =>
      var o := Head(faults);
      Exec(cfg, if o.Done? then ok else err, Tail(faults), Effect(cfg, call, o, w))
  }

  /** Unfolds one call. */
  lemma ExecOne(cfg: Config, p: Program, faults: seq<Outcome>, w: World)
    requires p.Do?
    ensures Exec(cfg, p, faults, w) ==
            Exec(cfg, Branch(p, Head(faults)), Tail(faults), Effect(cfg, p.call, Head(faults), w))
  {
  }

  /** Two calls that both succeed. */
  lemma ExecTwo(cfg: Config, c: Call, d: Call, w: World)
    ensures Exec(cfg, Do(c, Do(d, Halt, Halt), Halt), [], w) == Apply(cfg, d, Apply(cfg, c, w))
  {
    ExecOne(cfg, Do(c, Do(d, Halt, Halt), Halt), [], w);
    ExecOne(cfg, Do(d, Halt, Halt), [], Apply(cfg, c, w));
  }

  /** The worlds a program passes through, the first and the last included. */
  function Visited(cfg: Config, p: Program, faults: seq<Outcome>, w: World): seq<World> {
    match p
    case Halt => [w]
    case Do(call, ok, err) =>
      var o := Head(faults);
      [w] + Visited(cfg, if o.Done? then ok else err, Tail(faults), Effect(cfg, call, o, w))
  }

  lemma {:induction false} LastIsVisited(cfg: Config, p: Program, faults: seq<Outcome>, w: World)
    ensures Exec(cfg, p, faults, w) in Visited(cfg, p, faults, w)
  {
    if p.Do? {
      LastIsVisited(cfg, Branch(p, Head(faults)), Tail(faults), Effect(cfg, p.call, Head(faults), w));
    }
  }

  /** The calls a program attempts. */
  function Attempted(p: Program, faults: seq<Outcome>): seq<Call> {
    match p
    case Halt => []
    case Do(call, ok, err) => [call] + Attempted(if Head(faults).Done? then ok else err, Tail(faults))
  }

  // ---------------------------------------------------------------------------
  // Proof rule for programs
  // ---------------------------------------------------------------------------

  /** Which failures a statement allows for which calls. */
  datatype FaultModel =
    | AnyFault
    | NoLostSuccess // the write of phase Succeeded never takes effect while reporting an error
    | NoHalfScaling // see TearsScaling
    | NoHalfSkipping // nor is the write of phase Succeeded anything but done
    | NoFault

  /** The failures after which a rollout goes on with a canary at zero replicas: scaling up
      did not happen although the phase write before it did, scaling down happened although
      the phase write after it did not. */
  predicate TearsScaling(c: Call, o: Outcome) {
    match c
    case ScaleFromZero => o.Refused?
    case SetStatusPhase(phase) => phase == Progressing && o.Lost?
    case ScaleToZero => o.Lost?
    case SyncStatus(phase) => phase == Failed && o.Refused?
    case _ => false
  }

  predicate Allows(m: FaultModel, c: Call, o: Outcome) {
    match m
    case AnyFault => true
    case NoLostSuccess => !(c == SetStatusPhase(Succeeded) && o.Lost?)
    case NoHalfScaling => !TearsScaling(c, o)
    case NoHalfSkipping => !TearsScaling(c, o) && (c == SetStatusPhase(Succeeded) ==> o.Done?)
    case NoFault => o.Done?
  }

  /** Every failure met while the program runs is one the model allows. */
  predicate Within(m: FaultModel, p: Program, faults: seq<Outcome>) {
    p.Do? ==>
      && Allows(m, p.call, Head(faults))
      && Within(m, Branch(p, Head(faults)), Tail(faults))
  }

  lemma {:induction false} AnyFaultIsWithin(p: Program, faults: seq<Outcome>)
    ensures Within(AnyFault, p, faults)
  {
    if p.Do? {
      AnyFaultIsWithin(Branch(p, Head(faults)), Tail(faults));
    }
  }

  lemma {:induction false} NothingFails(cfg: Config, p: Program, faults: seq<Outcome>, w: World)
    requires Within(NoFault, p, faults)
    ensures Exec(cfg, p, faults, w) == Exec(cfg, p, [], w)
  {
    if p.Do? {
      NothingFails(cfg, p.ok, Tail(faults), Apply(cfg, p.call, w));
    }
  }

  lemma {:induction false} DoneIsNoFault(p: Program, faults: seq<Outcome>)
    requires forall o <- faults :: o.Done?
    ensures Within(NoFault, p, faults)
  {
    if p.Do? {
      DoneIsNoFault(p.ok, Tail(faults));
    }
  }

  /** What a program has to respect: at every world it visits, at every call it attempts,
      and at the world where it stops. */
  datatype Contract = Contract(always: World -> bool, calls: Call -> bool, finally: World -> bool)

  ghost predicate Ends(k: Contract, w: World) {
    k.always(w) && k.finally(w)
  }

  ghost predicate Meets(k: Contract, m: FaultModel, cfg: Config, p: Program, w: World) {
    if p.Halt? then Ends(k, w)
    else
      var done := Apply(cfg, p.call, w);
      && k.always(w)
      && k.calls(p.call)
      && (if p.ok.Halt? then Ends(k, done) else Meets(k, m, cfg, p.ok, done))
      && (Allows(m, p.call, Refused) ==>
            if p.err.Halt? then Ends(k, w) else Meets(k, m, cfg, p.err, w))
      && (Allows(m, p.call, Lost) ==>
            if p.err.Halt? then Ends(k, done) else Meets(k, m, cfg, p.err, done))
  }

  lemma {:induction false} MeetsIsSound(
    k: Contract, m: FaultModel, cfg: Config, p: Program, faults: seq<Outcome>, w: World)
    requires Meets(k, m, cfg, p, w) && Within(m, p, faults)
    ensures forall v <- Visited(cfg, p, faults, w) :: k.always(v)
    ensures forall c <- Attempted(p, faults) :: k.calls(c)
    ensures k.finally(Exec(cfg, p, faults, w))
  {
    if p.Do? {
      var o := Head(faults);
      if Branch(p, o).Halt? {
        assert Meets(k, m, cfg, Halt, Effect(cfg, p.call, o, w));
      }
      MeetsIsSound(k, m, cfg, Branch(p, o), Tail(faults), Effect(cfg, p.call, o, w));
    }
  }

  /** One call, then the end. */
  lemma MeetsOne(k: Contract, m: FaultModel, cfg: Config, c: Call, w: World)
    requires k.calls(c) && k.always(w) && Ends(k, Apply(cfg, c, w))
    requires Allows(m, c, Refused) ==> Ends(k, w)
    ensures Meets(k, m, cfg, Do(c, Halt, Halt), w)
  {
  }

  /** Two calls, the second only if the first succeeds. */
  lemma MeetsTwo(k: Contract, m: FaultModel, cfg: Config, c: Call, d: Call, w: World)
    requires k.calls(c) && k.calls(d)
    requires k.always(w) && k.always(Apply(cfg, c, w)) && Ends(k, Apply(cfg, d, Apply(cfg, c, w)))
    requires Allows(m, c, Refused) ==> Ends(k, w)
    requires Allows(m, c, Lost) || Allows(m, d, Refused) ==> Ends(k, Apply(cfg, c, w))
    ensures Meets(k, m, cfg, Do(c, Do(d, Halt, Halt), Halt), w)
  {
    MeetsOne(k, m, cfg, d, Apply(cfg, c, w));
  }

  /** One call, and then a program if it succeeds. */
  lemma MeetsThen(k: Contract, m: FaultModel, cfg: Config, c: Call, next: Program, w: World)
    requires k.calls(c) && k.always(w) && Meets(k, m, cfg, next, Apply(cfg, c, w))
    requires Allows(m, c, Refused) ==> Ends(k, w)
    requires Allows(m, c, Lost) ==> Ends(k, Apply(cfg, c, w))
    ensures Meets(k, m, cfg, Do(c, next, Halt), w)
  {
  }

  /** One call with a way to go on if it fails. */
  lemma MeetsElse(k: Contract, m: FaultModel, cfg: Config, c: Call, ok: Program, rest: Program, w: World)
    requires k.calls(c) && k.always(w)
    requires Meets(k, m, cfg, ok, Apply(cfg, c, w))
    requires Allows(m, c, Refused) ==> Meets(k, m, cfg, rest, w)
    requires Allows(m, c, Lost) ==> Meets(k, m, cfg, rest, Apply(cfg, c, w))
    ensures Meets(k, m, cfg, Do(c, ok, rest), w)
  {
  }

  /** Two calls, the second whatever becomes of the first. */
  lemma MeetsBoth(k: Contract, m: FaultModel, cfg: Config, c: Call, d: Call, w: World)
    requires k.calls(c) && k.calls(d)
    requires Ends(k, w) && Ends(k, Apply(cfg, d, w))
    requires Ends(k, Apply(cfg, c, w)) && Ends(k, Apply(cfg, d, Apply(cfg, c, w)))
    ensures Meets(k, m, cfg, Do(c, Do(d, Halt, Halt), Do(d, Halt, Halt)), w)
  {
    MeetsOne(k, m, cfg, d, w);
    MeetsOne(k, m, cfg, d, Apply(cfg, c, w));
  }

  // ---------------------------------------------------------------------------
  // The API objects, updated in place
  // ---------------------------------------------------------------------------

  class Api {
    const cfg: Config
    var status: Status
    var target: Revision
    var primary: Option<Revision>
    var replicas: nat
    var routes: Routes
    var clock: nat
    var faults: seq<Outcome>  // how the coming calls will end
    ghost var plan: Program   // the calls that are due

    constructor (cfg: Config, w: World, faults: seq<Outcome>)
      ensures this.cfg == cfg && View() == w && this.faults == faults && plan == Halt
    {
      this.cfg := cfg;
      status, target, primary := w.status, w.target, w.primary;
      replicas, routes, clock := w.replicas, w.routes, w.clock;
      this.faults := faults;
      plan := Halt;
    }

    function View(): World
      reads this
    {
      World(status, target, primary, replicas, routes, clock)
    }

    /** Where the plan will lead. */
    ghost function Outlook(): World
      reads this
    {
      Exec(cfg, plan, faults, View())
    }

    ghost predicate Due(c: Call)
      reads this
    {
      plan.Do? && plan.call == c
    }

    /** The call that was due has been made: `ok` is what the caller sees, and the plan goes
        on accordingly. */
    twostate predicate Called(c: Call, ok: bool)
      requires old(plan).Do?
      reads this
    {
      && ok == Head(old(faults)).Done?
      && faults == Tail(old(faults))
      && View() == Effect(cfg, c, Head(old(faults)), old(View()))
      && plan == (if ok then old(plan).ok else old(plan).err)
      && Outlook() == old(Outlook())
    }

    method NextOutcome() returns (o: Outcome)
      requires plan.Do?
      modifies this`faults, this`plan
      ensures o == Head(old(faults)) && faults == Tail(old(faults)) && plan == Branch(old(plan), o)
    {
      o := Head(faults);
      faults := Tail(faults);
      plan := Branch(plan, o);
    }

    method SetRoutes(primaryWeight: int, canaryWeight: int, mirrored: bool) returns (ok: bool)
      requires Due(Call.SetRoutes(Routes(primaryWeight, canaryWeight, mirrored)))
      modifies this
      ensures Called(Call.SetRoutes(Routes(primaryWeight, canaryWeight, mirrored)), ok)
    {
      var o := NextOutcome();
      if !o.Refused? && !cfg.provider.Kubernetes? {
        routes := Routes(primaryWeight, canaryWeight, mirrored && cfg.provider.storesMirror);
      }
      return o.Done?;
    }

    method CreatePrimary() returns (ok: bool)
      requires Due(Call.CreatePrimary)
      modifies this
      ensures Called(Call.CreatePrimary, ok)
    {
      var o := NextOutcome();
      if !o.Refused? {
        primary := Some(target);
      }
      return o.Done?;
    }

    /** The first part of a promotion: the primary's configs, but not yet its template. */
    method CopyConfigs() returns (ok: bool)
      requires Due(Call.CopyConfigs)
      modifies this
      ensures Called(Call.CopyConfigs, ok)
    {
      var o := NextOutcome();
      if !o.Refused? && primary.Some? {
        primary := Some(primary.value.(configs := target.configs));
      }
      return o.Done?;
    }

    method Promote() returns (ok: bool)
      requires Due(Call.Promote)
      modifies this
      ensures Called(Call.Promote, ok)
    {
      var o := NextOutcome();
      if !o.Refused? {
        primary := Some(target);
      }
      return o.Done?;
    }

    method ScaleToZero() returns (ok: bool)
      requires Due(Call.ScaleToZero)
      modifies this
      ensures Called(Call.ScaleToZero, ok)
    {
      var o := NextOutcome();
      if !o.Refused? {
        replicas := 0;
      }
      return o.Done?;
    }

    method ScaleFromZero() returns (ok: bool)
      requires Due(Call.ScaleFromZero)
      modifies this
      ensures Called(Call.ScaleFromZero, ok)
    {
      var o := NextOutcome();
      if !o.Refused? && replicas == 0 {
        replicas := 1;
      }
      return o.Done?;
    }

    method Store(write: Write) returns (ok: bool)
      requires plan.Do?
      modifies this
      ensures ok == Head(old(faults)).Done?
      ensures faults == Tail(old(faults)) && plan == Branch(old(plan), Head(old(faults)))
      ensures View() == if Head(old(faults)).Refused? then old(View()) else Put(old(View()), write)
    {
      var o := NextOutcome();
      if !o.Refused? {
        status := Amend(status, write, clock);
        clock := clock + 1;
      }
      return o.Done?;
    }

    /** Hashes the target and snapshots its configs along with the new phase. */
    method SyncStatus(phase: Phase) returns (ok: bool)
      requires Due(Call.SyncStatus(phase))
      modifies this
      ensures Called(Call.SyncStatus(phase), ok)
    {
      ok := Store(Sync(phase, 0, 0, 0, target.template, target.configs));
    }

    method SetStatusPhase(phase: Phase) returns (ok: bool)
      requires Due(Call.SetStatusPhase(phase))
      modifies this
      ensures Called(Call.SetStatusPhase(phase), ok)
    {
      ok := Store(SetPhase(phase));
    }

    method SetStatusWeight(weight: int) returns (ok: bool)
      requires Due(Call.SetStatusWeight(weight))
      modifies this
      ensures Called(Call.SetStatusWeight(weight), ok)
    {
      ok := Store(SetWeight(weight));
    }

    method SetStatusIterations(n: int) returns (ok: bool)
      requires Due(Call.SetStatusIterations(n))
      modifies this
      ensures Called(Call.SetStatusIterations(n), ok)
    {
      ok := Store(SetIterations(n));
    }

    method SetStatusFailedChecks(n: int) returns (ok: bool)
      requires Due(Call.SetStatusFailedChecks(n))
      modifies this
      ensures Called(Call.SetStatusFailedChecks(n), ok)
    {
      ok := Store(CanaryStatus.SetFailedChecks(n));
    }
  }
}
