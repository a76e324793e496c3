// The Istio router: weights kept in a VirtualService that may have been there before
// (pkg/router/istio.go).

module Istio {
  import Analysis
  import Cluster
  import opened Options
  import opened MatchConditions
  import opened Metadata

  /** `other` stands for everything a rule or a spec can hold that is never generated. */
  datatype Destination = Destination(host: string, port: Option<nat>, subset: string, weight: int)

  datatype Rule = Rule(
    conditions: seq<Condition>,
    policy: string,
    route: seq<Destination>,
    mirror: Option<string>,
    mirrorPercentage: Option<int>,
    other: string)

  datatype Spec = Spec(hosts: seq<string>, gateways: seq<string>, http: seq<Rule>, other: string)

  /** An annotation is a text, or a spec in JSON, which is taken to be lossless. */
  datatype Annotation = Text(text: string) | Saved(spec: Spec)

  datatype VirtualService = VirtualService(spec: Spec, annotations: map<string, Annotation>)

  const CONFIG := "flagger.kubernetes.io/original-configuration"
  const KUBECTL := "kubectl.kubernetes.io/last-applied-configuration"

  /** The parts of a Canary the router reads. `policy` bundles rewrite, timeout, retries,
      CORS policy and headers. */
  datatype Service = Service(
    apex: string,
    hosts: seq<string>,
    gateways: seq<string>,
    delegation: bool,
    conditions: seq<Condition>,
    analysisConditions: seq<Condition>,
    policy: string,
    portDiscovery: bool,
    port: nat,
    mirrorWeight: int)

  type Weights = Cluster.Routes

  function PrimaryHost(s: Service): string {
    s.apex + "-primary"
  }

  function CanaryHost(s: Service): string {
    s.apex + "-canary"
  }

  predicate IsAB(s: Service) {
    |s.analysisConditions| > 0
  }

  // ---------------------------------------------------------------------------
  // What the router generates
  // ---------------------------------------------------------------------------

  function MakeDestination(s: Service, host: string, weight: int): Destination {
    if s.portDiscovery && |s.gateways| > 0 && s.gateways[0] != "mesh"
    then Destination(host, Some(s.port % 0x1_0000_0000), "", weight)
    else Destination(host, None, "", weight)
  }

  function Both(s: Service, w: Weights): seq<Destination> {
    [MakeDestination(s, PrimaryHost(s), w.primary), MakeDestination(s, CanaryHost(s), w.canary)]
  }

  /** One weighted rule, or two rules for an A/B test, which never carry a mirror. */
  function Rules(s: Service, w: Weights): seq<Rule> {
    if IsAB(s) then
      [Rule(Merged(s.analysisConditions, s.conditions), s.policy, Both(s, w), None, None, ""),
       Rule(s.conditions, s.policy, [MakeDestination(s, PrimaryHost(s), w.primary)], None, None, "")]
    else
      [Rule(s.conditions, s.policy, Both(s, w),
            if w.mirrored then Some(CanaryHost(s)) else None,
            if w.mirrored && s.mirrorWeight > 0 then Some(s.mirrorWeight) else None, "")]
  }

  function Hosts(s: Service): seq<string> {
    if s.delegation then []
    else if exists h <- s.hosts :: h == s.apex || h == "*" then s.hosts
    else s.hosts + [s.apex]
  }

  function Gateways(s: Service): seq<string> {
    if s.delegation then [] else if s.gateways == [] then ["mesh"] else s.gateways
  }

  function NewSpec(s: Service): Spec {
    Spec(Hosts(s), Gateways(s), Rules(s, Cluster.Routes(100, 0, false)), "")
  }

  // ---------------------------------------------------------------------------
  // What a reconciliation compares
  // ---------------------------------------------------------------------------

  function Unweighted(route: seq<Destination>): seq<Destination> {
    seq(|route|, i requires 0 <= i < |route| => route[i].(weight := 0))
  }

  /** A rule without weights and mirror. */
  function Bare(r: Rule): Rule {
    r.(route := Unweighted(r.route), mirror := None, mirrorPercentage := None)
  }

  function BareRules(rules: seq<Rule>): seq<Rule> {
    seq(|rules|, i requires 0 <= i < |rules| => Bare(rules[i]))
  }

  predicate SameShape(a: Spec, b: Spec) {
    a.(http := BareRules(a.http)) == b.(http := BareRules(b.http))
  }

  /** With delegation the hosts and gateways on record are taken to be empty. */
  function Seen(s: Service, spec: Spec): Spec {
    if s.delegation then spec.(hosts := [], gateways := []) else spec
  }

  function Reconciled(stored: Option<VirtualService>, s: Service): VirtualService {
    if stored.None? then VirtualService(NewSpec(s), map[])
    else
      var vs := stored.value;
      var seen := Seen(s, vs.spec);
      if SameShape(NewSpec(s), seen) then vs
      else if KUBECTL in vs.annotations then vs.(spec := NewSpec(s))
      else VirtualService(NewSpec(s), Filtered(vs.annotations)[CONFIG := Saved(seen)])
  }

  function Routed(vs: VirtualService, s: Service, w: Weights): VirtualService {
    vs.(spec := vs.spec.(http := Rules(s, w)))
  }

  /** None if an annotation cannot be read back. */
  function Finalized(vs: VirtualService): Option<VirtualService> {
    var found :=
      if KUBECTL in vs.annotations then Some(vs.annotations[KUBECTL])
      else if CONFIG in vs.annotations then Some(vs.annotations[CONFIG])
      else None;
    if found.None? then Some(vs)
    else if found.value.Text? then None
    else Some(vs.(spec := found.value.spec))
  }

  // ---------------------------------------------------------------------------
  // Reading weights back
  // ---------------------------------------------------------------------------

  predicate Targets(r: Rule, host: string) {
    exists d <- r.route :: d.host == host
  }

  const NO_RULE := Rule([], "", [], None, None, "")

  /** The last rule with a destination for the host. */
  function LastRule(rules: seq<Rule>, host: string): Rule {
    if rules == [] then NO_RULE
    else if Targets(rules[|rules| - 1], host) then rules[|rules| - 1]
    else LastRule(rules[..|rules| - 1], host)
  }

  /** The weight of the last destination for the host. */
  function WeightOf(route: seq<Destination>, host: string): int {
    if route == [] then 0
    else if route[|route| - 1].host == host then route[|route| - 1].weight
    else WeightOf(route[..|route| - 1], host)
  }

  function Read(vs: VirtualService, s: Service): Weights {
    var rule := LastRule(vs.spec.http, CanaryHost(s));
    Cluster.Routes(WeightOf(rule.route, PrimaryHost(s)), WeightOf(rule.route, CanaryHost(s)),
            rule.mirror.Some? && rule.mirror.value != "")
  }

  lemma HostsDiffer(s: Service)
    ensures PrimaryHost(s) != CanaryHost(s)
  {
    assert |PrimaryHost(s)| == |s.apex| + 8 && |CanaryHost(s)| == |s.apex| + 7;
  }

  /** Nothing but weights and mirror sets the record apart from what would be generated. */
  predicate InSync(vs: VirtualService, s: Service) {
    SameShape(NewSpec(s), Seen(s, vs.spec))
  }

  // ---------------------------------------------------------------------------
  // Which requests go where
  // ---------------------------------------------------------------------------

  /** Of the rules that take a request, the first one decides where it goes. */
  ghost predicate Decides(mesh: Mesh, q: Request, http: seq<Rule>, i: nat)
    requires i < |http|
  {
    Takes(mesh, q, http[i].conditions) && forall j | 0 <= j < i :: !Takes(mesh, q, http[j].conditions)
  }

  /** The requests of an A/B test that its conditions select are led to primary and canary, as
      the weights have it, the others of the service to the primary only; without a test all of
      them are divided by weight. No rule takes any other request. */
  ghost predicate Divided(mesh: Mesh, q: Request, http: seq<Rule>, s: Service) {
    var primary, canary := s.apex + "-primary", s.apex + "-canary";
    var tested := s.analysisConditions != [];
    var selected := tested && Selects(mesh, q, s.analysisConditions, s.conditions);
    && ((exists i: nat | i < |http| :: Decides(mesh, q, http, i)) <==> selected || Takes(mesh, q, s.conditions))
    && forall i: nat | i < |http| && Decides(mesh, q, http, i) ::
         && Targets(http[i], primary) && (Targets(http[i], canary) <==> selected || !tested)
         && forall d <- http[i].route :: d.host == primary || d.host == canary
  }

  lemma RulesDivide(mesh: Mesh, q: Request, s: Service, w: Weights)
    ensures Divided(mesh, q, Rules(s, w), s)
  {
    HostsDiffer(s);
    var rules := Rules(s, w);
    assert Both(s, w)[0] in rules[0].route && Both(s, w)[1] in rules[0].route;
    if IsAB(s) {
      MergedSelects(mesh, q, s.analysisConditions, s.conditions);
      assert rules[1].route[0] in rules[1].route;
      assert Decides(mesh, q, rules, 0) <==> Selects(mesh, q, s.analysisConditions, s.conditions);
      assert Decides(mesh, q, rules, 1) || Decides(mesh, q, rules, 0) <==>
             Takes(mesh, q, rules[0].conditions) || Takes(mesh, q, s.conditions);
    } else {
      assert Decides(mesh, q, rules, 0) <==> Takes(mesh, q, s.conditions);
    }
  }

  /** Weights and mirror play no part in it. */
  lemma ShapeDivides(mesh: Mesh, q: Request, a: seq<Rule>, b: seq<Rule>, s: Service)
    requires BareRules(a) == BareRules(b) && Divided(mesh, q, a, s)
    ensures Divided(mesh, q, b, s)
  {
    assert |a| == |BareRules(a)| == |BareRules(b)| == |b|;
    forall i | 0 <= i < |a|
      ensures a[i].conditions == b[i].conditions
      ensures forall h :: Targets(a[i], h) <==> Targets(b[i], h)
    {
      assert BareRules(a)[i] == Bare(a[i]) && BareRules(b)[i] == Bare(b[i]);
      SameTargets(a[i], b[i]);
    }
    forall i: nat | i < |a|
      ensures Decides(mesh, q, a, i) <==> Decides(mesh, q, b, i)
    {
    }
    forall i: nat, d | i < |b| && d in b[i].route && Decides(mesh, q, b, i)
      ensures d.host == s.apex + "-primary" || d.host == s.apex + "-canary"
    {
      assert Targets(b[i], d.host) && Targets(a[i], d.host);
    }
  }

  lemma SameTargets(a: Rule, b: Rule)
    requires Bare(a) == Bare(b)
    ensures a.conditions == b.conditions && forall h :: Targets(a, h) <==> Targets(b, h)
  {
    assert Bare(a).route == Unweighted(a.route) && Bare(b).route == Unweighted(b.route);
    assert |a.route| == |Unweighted(a.route)| == |Unweighted(b.route)| == |b.route|;
    forall i | 0 <= i < |a.route|
      ensures a.route[i].host == b.route[i].host && a.route[i] in a.route && b.route[i] in b.route
    {
      assert Unweighted(a.route)[i] == a.route[i].(weight := 0) && Unweighted(b.route)[i] == b.route[i].(weight := 0);
    }
  }

  /** The service is reached under its own name or under any, and under every host and gateway the
      user names; a delegate names none. */
  predicate Announced(spec: Spec, s: Service) {
    if s.delegation then true
    else
      && s.hosts <= spec.hosts && (s.apex in spec.hosts || "*" in spec.hosts)
      && spec.gateways == if s.gateways == [] then ["mesh"] else s.gateways
  }

  lemma InSyncIsAnnounced(vs: VirtualService, s: Service)
    requires InSync(vs, s)
    ensures Announced(vs.spec, s)
  {
    if !s.delegation && !(exists h <- s.hosts :: h == s.apex || h == "*") {
      assert Hosts(s)[|s.hosts|] == s.apex;
    }
  }

  /** Every record in sync divides the requests so, whatever weights it holds. */
  lemma InSyncDivides(mesh: Mesh, q: Request, vs: VirtualService, s: Service)
    requires InSync(vs, s)
    ensures Divided(mesh, q, vs.spec.http, s)
  {
    RulesDivide(mesh, q, s, Cluster.Routes(100, 0, false));
    ShapeDivides(mesh, q, NewSpec(s).http, vs.spec.http, s);
  }

  lemma ReconciledIsInSync(stored: Option<VirtualService>, s: Service)
    ensures InSync(Reconciled(stored, s), s)
  {
  }

  lemma ReconciledIsServed(vs: VirtualService, s: Service)
    requires InSync(vs, s)
    ensures Announced(vs.spec, s) && forall mesh, q :: Divided(mesh, q, vs.spec.http, s)
  {
    InSyncIsAnnounced(vs, s);
    forall mesh, q {
      InSyncDivides(mesh, q, vs, s);
    }
  }

  /** Each destination has the weight of its service, and names its port if a gateway other than
      the mesh asks for it. Mirrored traffic goes to the canary, unless there is an A/B test. */
  predicate CarriesWeights(http: seq<Rule>, s: Service, w: Weights) {
    && (forall r <- http, d <- r.route ::
          && d.weight == (if d.host == s.apex + "-canary" then w.canary else w.primary)
          && (d.port.Some? <==> s.portDiscovery && s.gateways != [] && s.gateways[0] != "mesh"))
    && forall r <- http ::
         if w.mirrored && s.analysisConditions == [] then
           && r.mirror == Some(s.apex + "-canary")
           && r.mirrorPercentage == if s.mirrorWeight > 0 then Some(s.mirrorWeight) else None
         else r.mirror == None
  }

  lemma RulesAreDivided(s: Service, w: Weights)
    ensures CarriesWeights(Rules(s, w), s, w) && forall mesh, q :: Divided(mesh, q, Rules(s, w), s)
  {
    HostsDiffer(s);
    forall mesh, q {
      RulesDivide(mesh, q, s, w);
    }
  }

  // ---------------------------------------------------------------------------
  // The router
  // ---------------------------------------------------------------------------

  /** The VirtualService behind the API server; a call may be unable to read or to write. */
  class Router {
    var stored: Option<VirtualService>

    method MakeHosts(s: Service) returns (hosts: seq<string>)
      requires !s.delegation
      ensures hosts == Hosts(s)
    {
      hosts := s.hosts;
      var hasServiceHost := false;
      for i := 0 to |hosts|
        invariant !hasServiceHost && forall k | 0 <= k < i :: hosts[k] != s.apex && hosts[k] != "*"
      {
        if hosts[i] == s.apex || hosts[i] == "*" {
          assert hosts[i] in s.hosts;
          hasServiceHost := true;
          break;
        }
      }
      if !hasServiceHost {
        assert forall h <- s.hosts :: exists k :: 0 <= k < |s.hosts| && s.hosts[k] == h;
        hosts := hosts + [s.apex];
      }
    }

    /** Creates the VirtualService, or updates it if it differs in more than weights and
        mirror, saving what was there. */
    method Reconcile(s: Service, readable: bool, writable: bool) returns (ok: bool)
      modifies this
      ensures stored == if ok then Some(Reconciled(old(stored), s)) else old(stored)
      ensures ok <==>
                && readable && !(s.delegation && (s.hosts != [] || s.gateways != []))
                && (writable || old(stored) == Some(Reconciled(old(stored), s)))
      ensures ok ==> Announced(stored.value.spec, s)
      ensures ok ==> forall mesh, q :: Divided(mesh, q, stored.value.spec.http, s)
      ensures ok && old(stored).None? && s.delegation ==> stored.value.spec.hosts == stored.value.spec.gateways == []
    {
      if readable {
        ReconciledIsInSync(stored, s);
        ReconciledIsServed(Reconciled(stored, s), s);
      }
      if s.delegation && (|s.hosts| > 0 || |s.gateways| > 0) {
        return false;
      }
      var hosts, gateways := [], [];
      if !s.delegation {
        hosts := MakeHosts(s);
        gateways := if |s.gateways| == 0 then ["mesh"] else s.gateways;
      }
      var newSpec := Spec(hosts, gateways, Rules(s, Cluster.Routes(100, 0, false)), "");
      if !readable {
        return false;
      }
      if stored.None? {
        if !writable {
          return false;
        }
        stored := Some(VirtualService(newSpec, map[]));
        return true;
      }
      var vs := stored.value;
      if s.delegation {
        vs := vs.(spec := vs.spec.(hosts := [], gateways := []));
      }
      if !SameShape(newSpec, vs.spec) {
        var clone := vs.(spec := newSpec);
        if KUBECTL !in clone.annotations {
          var annotations := FilterMetadata(clone.annotations);
          clone := clone.(annotations := annotations[CONFIG := Saved(vs.spec)]);
        }
        if !writable {
          return false;
        }
        stored := Some(clone);
      }
      ok := true;
    }

    /** An error is reported when both weights read as zero. */
    method GetRoutes(s: Service, readable: bool) returns (routes: Option<Weights>)
      ensures routes ==
              if !readable || stored.None? then None
              else
                var w := Read(stored.value, s);
                if w.primary == 0 && w.canary == 0 then None else Some(w)
    {
      if !readable || stored.None? {
        return None;
      }
      var http, httpRoute := stored.value.spec.http, NO_RULE;
      for i := 0 to |http|
        invariant httpRoute == LastRule(http[..i], CanaryHost(s))
      {
        var found := false;
        for j := 0 to |http[i].route|
          invariant !found && forall k | 0 <= k < j :: http[i].route[k].host != CanaryHost(s)
          invariant httpRoute == LastRule(http[..i], CanaryHost(s))
        {
          if http[i].route[j].host == CanaryHost(s) {
            httpRoute := http[i];
            found := true;
            break;
          }
        }
        assert found == Targets(http[i], CanaryHost(s));
        assert http[..i + 1][..i] == http[..i];
      }
      assert http[..|http|] == http;
      var primaryWeight, canaryWeight := 0, 0;
      var route := httpRoute.route;
      for i := 0 to |route|
        invariant primaryWeight == WeightOf(route[..i], PrimaryHost(s))
        invariant canaryWeight == WeightOf(route[..i], CanaryHost(s))
      {
        if route[i].host == PrimaryHost(s) {
          primaryWeight := route[i].weight;
        }
        if route[i].host == CanaryHost(s) {
          canaryWeight := route[i].weight;
        }
        assert route[..i + 1][..i] == route[..i];
      }
      assert route[..|route|] == route;
      var mirrored := httpRoute.mirror.Some? && httpRoute.mirror.value != "";
      if primaryWeight == 0 && canaryWeight == 0 {
        return None;
      }
      return Some(Cluster.Routes(primaryWeight, canaryWeight, mirrored));
    }

    method SetRoutes(s: Service, w: Weights, readable: bool, writable: bool) returns (ok: bool)
      modifies this
      ensures ok <==> readable && writable && old(stored).Some?
      ensures stored == if ok then Some(Routed(old(stored).value, s, w)) else old(stored)
      ensures ok ==> forall mesh, q :: Divided(mesh, q, stored.value.spec.http, s)
      ensures ok ==> CarriesWeights(stored.value.spec.http, s, w)
    {
      RulesAreDivided(s, w);
      if !readable || stored.None? {
        return false;
      }
      var copy := stored.value;
      var rule := Rule(s.conditions, s.policy,
                       [MakeDestination(s, PrimaryHost(s), w.primary), MakeDestination(s, CanaryHost(s), w.canary)],
                       None, None, "");
      if w.mirrored {
        rule := rule.(mirror := Some(CanaryHost(s)));
        if s.mirrorWeight > 0 {
          rule := rule.(mirrorPercentage := Some(s.mirrorWeight));
        }
      }
      copy := copy.(spec := copy.spec.(http := [rule]));
      if |s.analysisConditions| > 0 {
        var canaryMatch := MergeMatchConditions(s.analysisConditions, s.conditions);
        copy := copy.(spec := copy.spec.(http := [
          Rule(canaryMatch, s.policy,
               [MakeDestination(s, PrimaryHost(s), w.primary), MakeDestination(s, CanaryHost(s), w.canary)],
               None, None, ""),
          Rule(s.conditions, s.policy, [MakeDestination(s, PrimaryHost(s), w.primary)], None, None, "")]));
      }
      if !writable {
        return false;
      }
      stored := Some(copy);
      ok := true;
    }

    method Finalize(readable: bool, writable: bool) returns (ok: bool)
      modifies this
      ensures ok ==> old(stored).Some? && stored == Finalized(old(stored).value)
      ensures !ok ==> stored == old(stored)
      ensures readable && writable && old(stored).Some? ==> ok == Finalized(old(stored).value).Some?
    {
      if !readable || stored.None? {
        return false;
      }
      var vs, storedSpec := stored.value, stored.value.spec;
      if KUBECTL in vs.annotations {
        if vs.annotations[KUBECTL].Text? {
          return false;
        }
        storedSpec := vs.annotations[KUBECTL].spec;
      } else if CONFIG in vs.annotations {
        if vs.annotations[CONFIG].Text? {
          return false;
        }
        storedSpec := vs.annotations[CONFIG].spec;
      } else {
        return true;
      }
      if !writable {
        return false;
      }
      stored := Some(vs.(spec := storedSpec));
      ok := true;
    }
  }

  // ---------------------------------------------------------------------------
  // Weights survive reconciliation
  // ---------------------------------------------------------------------------

  lemma ReadBoth(s: Service, w: Weights)
    ensures WeightOf(Both(s, w), PrimaryHost(s)) == w.primary
    ensures WeightOf(Both(s, w), CanaryHost(s)) == w.canary
    ensures Both(s, w)[1].host == CanaryHost(s)
  {
    HostsDiffer(s);
    var r := Both(s, w);
    assert r[..1] == [r[0]];
    assert r[..1][..0] == [];
  }

  /** GetRoutes reads what SetRoutes wrote; an A/B test does not keep the mirror flag. */
  lemma RoutesReadBack(vs: VirtualService, s: Service, w: Weights)
    ensures Read(Routed(vs, s, w), s) == w.(mirrored := w.mirrored && !IsAB(s))
  {
    HostsDiffer(s);
    ReadBoth(s, w);
    var rules, host := Rules(s, w), CanaryHost(s);
    assert Both(s, w)[1] in rules[0].route;
    assert Targets(rules[0], host) && |host| > 0;
    if IsAB(s) {
      assert !Targets(rules[1], host);
      assert rules[..1] == [rules[0]] && rules[..1][0] == rules[0];
      assert LastRule(rules, host) == LastRule(rules[..1], host) == rules[0];
    } else {
      assert LastRule(rules, host) == rules[0];
    }
  }

  lemma RulesHaveOneShape(s: Service, w: Weights, v: Weights)
    ensures BareRules(Rules(s, w)) == BareRules(Rules(s, v))
  {
    assert Unweighted(Both(s, w)) == Unweighted(Both(s, v));
    var p, q := [MakeDestination(s, PrimaryHost(s), w.primary)], [MakeDestination(s, PrimaryHost(s), v.primary)];
    assert Unweighted(p) == Unweighted(q);
  }

  lemma RoutingStaysInSync(vs: VirtualService, s: Service, w: Weights)
    requires InSync(vs, s)
    ensures InSync(Routed(vs, s, w), s)
  {
    RulesHaveOneShape(s, Cluster.Routes(100, 0, false), w);
  }

  /** Reconcile leaves a record alone exactly if it is in sync. */
  lemma ReconcileIsIdle(vs: VirtualService, s: Service)
    ensures Reconciled(Some(vs), s) == vs <==> InSync(vs, s)
  {
    ReconciledIsInSync(Some(vs), s);
  }

  /** What a rollout does to the record; a failed call does nothing. */
  datatype Op = Reconcile(done: bool) | SetRoutes(weights: Weights, done: bool)

  function Apply(vs: VirtualService, s: Service, op: Op): VirtualService {
    if !op.done then vs
    else match op
         case Reconcile(_) => Reconciled(Some(vs), s)
         case SetRoutes(w, _) => Routed(vs, s, w)
  }

  function After(vs: VirtualService, s: Service, ops: seq<Op>): VirtualService {
    if ops == [] then vs else Apply(After(vs, s, ops[..|ops| - 1]), s, ops[|ops| - 1])
  }

  /** The weights of the last successful SetRoutes, as far as the router stores them. */
  function LastSet(w: Weights, s: Service, ops: seq<Op>): Weights {
    if ops == [] then w
    else
      var op := ops[|ops| - 1];
      if op.SetRoutes? && op.done then op.weights.(mirrored := op.weights.mirrored && !IsAB(s))
      else LastSet(w, s, ops[..|ops| - 1])
  }

  /** Main result: over any number of reconciliations and weight changes, the weights read
      are those last written. */
  lemma {:induction false} RoutesSurviveReconciliation(vs: VirtualService, s: Service, ops: seq<Op>)
    requires InSync(vs, s)
    ensures InSync(After(vs, s, ops), s)
    ensures Read(After(vs, s, ops), s) == LastSet(Read(vs, s), s, ops)
    ensures After(vs, s, ops).annotations == vs.annotations
  {
    if ops != [] {
      var before := After(vs, s, ops[..|ops| - 1]);
      RoutesSurviveReconciliation(vs, s, ops[..|ops| - 1]);
      var op := ops[|ops| - 1];
      if op.done {
        match op {
          case Reconcile(_) => ReconcileIsIdle(before, s);
          case SetRoutes(w, _) =>
            RoutesReadBack(before, s, w);
            RoutingStaysInSync(before, s, w);
        }
      }
    }
  }

  /** The VirtualService holds the routes of the rollout. */
  ghost predicate Represents(vs: VirtualService, s: Service, w: Cluster.World) {
    InSync(vs, s) && Read(vs, s) == w.routes
  }

  /** The router behaves as the rollout machine assumes of a mesh router: one that stores
      weights, and stores the mirror flag unless there is an A/B test. A reconciliation, which
      comes first in every tick, changes nothing the machine can see. */
  lemma RouterRefinesRollout(vs: VirtualService, s: Service, cfg: Analysis.Config, w: Cluster.World, r: Weights)
    requires cfg.provider == Analysis.Mesh(!IsAB(s)) && Represents(vs, s, w)
    ensures Represents(Reconciled(Some(vs), s), s, w)
    ensures Represents(Routed(vs, s, r), s, Cluster.Apply(cfg, Cluster.SetRoutes(r), w))
  {
    ReconcileIsIdle(vs, s);
    RoutesReadBack(vs, s, r);
    RoutingStaysInSync(vs, s, r);
  }

  /** A rollout starts from a freshly created VirtualService with all traffic on the primary. */
  lemma NewServiceFavoursPrimary(s: Service)
    ensures InSync(Reconciled(None, s), s) && Read(Reconciled(None, s), s) == Cluster.ALL_TO_PRIMARY
  {
    RoutesReadBack(Reconciled(None, s), s, Cluster.ALL_TO_PRIMARY);
  }

  // ---------------------------------------------------------------------------
  // Giving the VirtualService back
  // ---------------------------------------------------------------------------

  /** The record after a first reconciliation and whatever a rollout does next. */
  function Managed(vs: VirtualService, s: Service, ops: seq<Op>): VirtualService {
    After(Reconciled(Some(vs), s), s, ops)
  }

  /** Main result: a VirtualService that was there before, and was not already in sync, is
      given back with its own spec, after any number of reconciliations and weight changes. */
  lemma OriginalIsRestored(vs: VirtualService, s: Service, ops: seq<Op>)
    requires KUBECTL !in vs.annotations && !s.delegation && !InSync(vs, s)
    ensures Finalized(Managed(vs, s, ops)).Some? && Finalized(Managed(vs, s, ops)).value.spec == vs.spec
  {
    var first := Reconciled(Some(vs), s);
    ReconciledIsInSync(Some(vs), s);
    RoutesSurviveReconciliation(first, s, ops);
    assert |KUBECTL| != |CONFIG|;
  }

  /** The user's annotations stay as they are, whatever is done to the record. */
  lemma AnnotationsSurvive(vs: VirtualService, s: Service, ops: seq<Op>, k: string)
    requires k in vs.annotations && k != CONFIG && !Contains(k, TOOLKIT)
    ensures var a := Managed(vs, s, ops).annotations; k in a && a[k] == vs.annotations[k]
  {
    ReconciledIsInSync(Some(vs), s);
    RoutesSurviveReconciliation(Reconciled(Some(vs), s), s, ops);
  }

  /** The weights of the last successful SetRoutes, as they were given. */
  function LastWritten(ops: seq<Op>): Option<Weights> {
    if ops == [] then None
    else
      var op := ops[|ops| - 1];
      if op.SetRoutes? && op.done then Some(op.weights) else LastWritten(ops[..|ops| - 1])
  }

  /** A record in sync changes in its rules only, and only by SetRoutes. */
  lemma {:induction false} OnlyRulesChange(vs: VirtualService, s: Service, ops: seq<Op>)
    requires InSync(vs, s)
    ensures var last := LastWritten(ops);
            After(vs, s, ops) == if last.None? then vs else Routed(vs, s, last.value)
  {
    if ops != [] {
      var init, op := ops[..|ops| - 1], ops[|ops| - 1];
      OnlyRulesChange(vs, s, init);
      RoutesSurviveReconciliation(vs, s, init);
      if op.done && op.Reconcile? {
        ReconcileIsIdle(After(vs, s, init), s);
      }
    }
  }

  /** The user gets the original spec back. */
  predicate IsRestored(vs: VirtualService, managed: VirtualService) {
    Finalized(managed).Some? && Finalized(managed).value.spec == vs.spec
  }

  /** The spec comes back exactly under this condition. A record with kubectl's copy goes back to
      that copy. Any other that was out of sync is saved as it was seen, with delegation without
      its hosts and gateways. One that was in sync is not saved: it has to have been saved
      before, or to be left with the rules it had. */
  lemma RestoredExactly(vs: VirtualService, s: Service, ops: seq<Op>)
    ensures IsRestored(vs, Managed(vs, s, ops)) <==>
              if KUBECTL in vs.annotations then vs.annotations[KUBECTL] == Saved(vs.spec)
              else if !InSync(vs, s) then !s.delegation || vs.spec.hosts == vs.spec.gateways == []
              else if CONFIG in vs.annotations then vs.annotations[CONFIG] == Saved(vs.spec)
              else LastWritten(ops).None? || Rules(s, LastWritten(ops).value) == vs.spec.http
  {
    var first := Reconciled(Some(vs), s);
    assert |KUBECTL| != |CONFIG|;
    if KUBECTL in vs.annotations {
      ReconciledIsInSync(Some(vs), s);
      RoutesSurviveReconciliation(first, s, ops);
    } else if InSync(vs, s) {
      OnlyRulesChange(vs, s, ops);
    } else {
      ReconciledIsInSync(Some(vs), s);
      RoutesSurviveReconciliation(first, s, ops);
      assert first.annotations[CONFIG] == Saved(Seen(s, vs.spec));
    }
  }

  /** A record that kubectl applied goes back to what kubectl applied. */
  lemma KubectlRecordIsRestored(vs: VirtualService, s: Service, ops: seq<Op>)
    requires KUBECTL in vs.annotations && vs.annotations[KUBECTL].Saved?
    ensures var v := Finalized(Managed(vs, s, ops));
            v.Some? && v.value.spec == vs.annotations[KUBECTL].spec
  {
    ReconciledIsInSync(Some(vs), s);
    RoutesSurviveReconciliation(Reconciled(Some(vs), s), s, ops);
  }

  /** After a change of the Canary the saved spec is overwritten with a generated one: what
      comes back, after whatever the new rollout does, is what the old one last left. */
  lemma ChangedCanaryForgetsOriginal(vs: VirtualService, s: Service, ops: seq<Op>, s': Service, ops': seq<Op>)
    requires KUBECTL !in vs.annotations && !s.delegation && !s'.delegation && !InSync(vs, s)
    ensures var managed := Managed(vs, s, ops);
            var v := Finalized(Managed(managed, s', ops'));
            v.Some? && v.value.spec == if InSync(managed, s') then vs.spec else managed.spec
    ensures Managed(vs, s, ops).spec != vs.spec
  {
    var managed := Managed(vs, s, ops);
    OriginalIsRestored(vs, s, ops);
    ReconciledIsInSync(Some(vs), s);
    RoutesSurviveReconciliation(Reconciled(Some(vs), s), s, ops);
    ReconciledIsInSync(Some(managed), s');
    RoutesSurviveReconciliation(Reconciled(Some(managed), s'), s', ops');
    assert |KUBECTL| != |CONFIG|;
  }
}
