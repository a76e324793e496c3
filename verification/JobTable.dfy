// The table of running jobs, kept in step with the known canaries
// (pkg/controller/scheduler.go, pkg/controller/job.go).

module JobTable {
  const SECOND := 1_000_000_000
  const DEFAULT_INTERVAL := 60 * SECOND
  const MIN_INTERVAL := 10 * SECOND

  /** The interval text of an analysis, as far as it can be parsed; in nanoseconds. */
  datatype IntervalText = Empty | Malformed | Parsed(duration: int)

  datatype Canary = Canary(interval: IntervalText)

  function GetAnalysisInterval(c: Canary): (d: int)
    ensures d >= 10_000_000_000
    ensures c.interval.Parsed? && c.interval.duration >= 10_000_000_000 ==> d == c.interval.duration
    ensures c.interval.Parsed? && c.interval.duration < 10_000_000_000 ==> d == 10_000_000_000
    ensures !c.interval.Parsed? ==> d == 60_000_000_000
  {
    match c.interval
    case Empty => DEFAULT_INTERVAL
    case Malformed => DEFAULT_INTERVAL
    case Parsed(d) => if d < MIN_INTERVAL then MIN_INTERVAL else d
  }

  /** A job runs from its start until its channel is closed. */
  class CanaryJob {
    const name: string
    const interval: int
    var starts: nat
    var stops: nat

    constructor (name: string, interval: int)
      ensures this.name == name && this.interval == interval && starts == stops == 0
    {
      this.name, this.interval := name, interval;
      starts, stops := 0, 0;
    }

    predicate IsRunning()
      reads this
    {
      starts == 1 && stops == 0
    }

    method Start()
      modifies this
      ensures starts == old(starts) + 1 && stops == old(stops)
    {
      starts := starts + 1;
    }

    /** Closing the channel a second time would panic. */
    method Stop()
      requires stops == 0
      modifies this
      ensures stops == 1 && starts == old(starts)
    {
      stops := stops + 1;
    }
  }

  class Scheduler {
    var canaries: map<string, Canary>
    var jobs: map<string, CanaryJob>
    ghost var history: set<CanaryJob>  // every job there ever was

    constructor ()
      ensures Valid() && canaries == map[] && jobs == map[] && history == {}
    {
      canaries, jobs, history := map[], map[], {};
    }

    /** Every job was started once; those in the table are running, under different names,
        and every other one has been stopped exactly once. */
    ghost predicate Valid()
      reads this, history
    {
      && (forall k <- jobs :: jobs[k] in history && jobs[k].name == k)
      && (forall j <- history :: j.starts == 1)
      && (forall j <- history :: j.stops == if j.name in jobs && jobs[j.name] == j then 0 else 1)
    }

    /** One running job for each canary, at its present interval. */
    ghost predicate InStep()
      reads this, jobs.Values
    {
      && jobs.Keys == canaries.Keys
      && forall k <- jobs :: jobs[k].IsRunning() && jobs[k].interval == GetAnalysisInterval(canaries[k])
    }

    method StoreCanary(name: string, c: Canary)
      requires Valid()
      modifies this`canaries
      ensures Valid() && canaries == old(canaries)[name := c]
    {
      canaries := canaries[name := c];
    }

    method DeleteCanary(name: string)
      requires Valid()
      modifies this`canaries
      ensures Valid() && canaries == old(canaries) - {name}
    {
      canaries := canaries - {name};
    }

    /** Gives a canary a job unless it has one at the right interval. */
    method ScheduleOne(name: string)
      requires Valid() && name in canaries
      modifies this`jobs, this`history, if name in jobs then {jobs[name]} else {}
      ensures Valid()
      ensures fresh(history - old(history))
      ensures old(history) <= history
      ensures name in jobs && jobs[name].interval == GetAnalysisInterval(canaries[name])
      ensures jobs == old(jobs)[name := jobs[name]]
      ensures if name in old(jobs) && old(jobs)[name].interval == GetAnalysisInterval(canaries[name])
              then jobs[name] == old(jobs)[name] && history == old(history)
              else fresh(jobs[name]) && history == old(history) + {jobs[name]}
    {
      var known := name in jobs;
      var interval := GetAnalysisInterval(canaries[name]);
      if !known || jobs[name].interval != interval {
        if known {
          jobs[name].Stop();
        }
        var newJob := new CanaryJob(name, interval);
        jobs := jobs[name := newJob];
        history := history + {newJob};
        newJob.Start();
      }
    }

    /** The name has a job at its canary's present interval. */
    predicate IsServed(name: string)
      requires name in canaries
      reads this
    {
      name in jobs && jobs[name].interval == GetAnalysisInterval(canaries[name])
    }

    /** The loop over the canaries, in any order. */
    method ScheduleAll()
      requires Valid()
      modifies this`jobs, this`history, history
      ensures Valid() && old(history) <= history && fresh(history - old(history))
      ensures forall k :: k in jobs <==> k in old(jobs) || k in canaries
      ensures forall k <- canaries :: IsServed(k)
      ensures forall k <- canaries :: old(IsServed(k)) ==> jobs[k] == old(jobs)[k]
    {
      var todo := canaries.Keys;
      while todo != {}
        invariant Valid() && old(history) <= history && fresh(history - old(history))
        invariant todo <= canaries.Keys
        invariant forall k :: k in jobs <==> k in old(jobs) || (k in canaries && k !in todo)
        invariant forall k <- canaries :: k in todo || IsServed(k)
        invariant forall k <- todo :: k in old(jobs) ==> jobs[k] == old(jobs)[k]
        invariant forall k <- canaries :: old(IsServed(k)) ==> jobs[k] == old(jobs)[k]
        decreases |todo|
      {
        var name :| name in todo;
        todo := todo - {name};
        ScheduleOne(name);
      }
    }

    method Remove(name: string)
      requires Valid() && name in jobs
      modifies this`jobs, jobs[name]
      ensures Valid() && jobs == old(jobs) - {name}
    {
      jobs[name].Stop();
      jobs := jobs - {name};
    }

    /** The cleanup of jobs whose canary is gone. */
    method Cleanup()
      requires Valid()
      modifies this`jobs, history
      ensures Valid() && history == old(history)
      ensures jobs == map k <- old(jobs) | k in canaries :: old(jobs)[k]
    {
      var todo := jobs.Keys;
      while todo != {}
        invariant Valid() && history == old(history)
        invariant todo <= old(jobs).Keys
        invariant jobs == map k <- old(jobs) | k in todo || k in canaries :: old(jobs)[k]
        decreases |todo|
      {
        var name :| name in todo;
        todo := todo - {name};
        if name !in canaries {
          Remove(name);
        }
      }
    }

    /** Brings the table in step: jobs that still fit are kept, the others are stopped, and
        none is stopped twice. */
    method ScheduleCanaries()
      requires Valid()
      modifies this`jobs, this`history, history
      ensures Valid() && InStep()
      ensures old(history) <= history && fresh(history - old(history))
      ensures forall k <- canaries :: old(IsServed(k)) ==> jobs[k] == old(jobs)[k]
    {
      ScheduleAll();
      Cleanup();
    }
  }

  // ---------------------------------------------------------------------------
  // Every sequence of events
  // ---------------------------------------------------------------------------

  datatype Event = Store(name: string, canary: Canary) | Delete(name: string) | Schedule

  /** The canaries known after the given events. */
  function Known(canaries: map<string, Canary>, es: seq<Event>): map<string, Canary> {
    if es == [] then canaries
    else
      var before := Known(canaries, es[..|es| - 1]);
      match es[|es| - 1]
      case Store(name, c) => before[name := c]
      case Delete(name) => before - {name}
      case Schedule => before
  }

  /** Main result: after any sequence of additions, updates, deletions and schedulings every
      job that ever was is accounted for, and right after a scheduling the table is in step
      with the canaries known by then. */
  method Drive(s: Scheduler, es: seq<Event>)
    requires s.Valid()
    modifies s, s.history
    ensures s.Valid() && s.canaries == Known(old(s.canaries), es)
    ensures es != [] && es[|es| - 1] == Schedule ==> s.InStep()
    ensures forall j <- old(s.history) :: j in s.history
  {
    for i := 0 to |es|
      invariant s.Valid() && s.canaries == Known(old(s.canaries), es[..i])
      invariant i > 0 && es[i - 1] == Schedule ==> s.InStep()
      invariant old(s.history) <= s.history && fresh(s.history - old(s.history))
    {
      match es[i] {
        case Store(name, c) => s.StoreCanary(name, c);
        case Delete(name) => s.DeleteCanary(name);
        case Schedule => s.ScheduleCanaries();
      }
      assert es[..i + 1][..i] == es[..i];
    }
    assert es[..|es|] == es;
  }
}
