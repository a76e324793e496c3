// Rules of a Kubernetes ingress, and how the NGINX and Skipper routers lead their paths to
// other services (pkg/router/ingress.go, pkg/router/skipper.go).

module IngressRules {
  import opened Options

  /** A path and the service behind it; `rest` is what else it says. */
  datatype Path = Path(service: Option<string>, rest: string)

  type Rules = seq<seq<Path>>

  predicate LeadsTo(p: Path, name: string) {
    p.service == Some(name)
  }

  predicate Mentions(rules: Rules, name: string) {
    exists paths <- rules, p <- paths :: LeadsTo(p, name)
  }

  function Redirect(p: Path, from: string, to: string): Path {
    if LeadsTo(p, from) then p.(service := Some(to)) else p
  }

  function RedirectPaths(paths: seq<Path>, from: string, to: string): seq<Path> {
    seq(|paths|, i requires 0 <= i < |paths| => Redirect(paths[i], from, to))
  }

  function Redirected(rules: Rules, from: string, to: string): Rules {
    seq(|rules|, i requires 0 <= i < |rules| => RedirectPaths(rules[i], from, to))
  }

  method RedirectInPaths(paths: seq<Path>, from: string, to: string) returns (redirected: seq<Path>, found: bool)
    ensures redirected == RedirectPaths(paths, from, to)
    ensures found <==> exists p <- paths :: LeadsTo(p, from)
  {
    redirected, found := paths, false;
    for i := 0 to |paths|
      invariant |redirected| == |paths|
      invariant forall k :: 0 <= k < i ==> redirected[k] == Redirect(paths[k], from, to)
      invariant forall k :: i <= k < |paths| ==> redirected[k] == paths[k]
      invariant found <==> exists k :: 0 <= k < i && LeadsTo(paths[k], from)
    {
      if paths[i].service == Some(from) {
        redirected := redirected[i := paths[i].(service := Some(to))];
        found := true;
      }
    }
    assert forall p <- paths :: exists k :: 0 <= k < |paths| && paths[k] == p;
  }

  /** Both loops over rules and paths. */
  method RedirectBackends(rules: Rules, from: string, to: string) returns (redirected: Rules, found: bool)
    ensures redirected == Redirected(rules, from, to)
    ensures found <==> Mentions(rules, from)
  {
    redirected, found := rules, false;
    for i := 0 to |rules|
      invariant |redirected| == |rules|
      invariant forall k :: 0 <= k < i ==> redirected[k] == RedirectPaths(rules[k], from, to)
      invariant forall k :: i <= k < |rules| ==> redirected[k] == rules[k]
      invariant found <==> exists k :: 0 <= k < i && exists p <- rules[k] :: LeadsTo(p, from)
    {
      var paths, here := RedirectInPaths(rules[i], from, to);
      redirected := redirected[i := paths];
      found := found || here;
    }
    assert forall paths <- rules :: exists k :: 0 <= k < |rules| && rules[k] == paths;
  }

  /** Path by path: what led to the old service leads to the new one, everything else is as it
      was. */
  predicate IsRedirected(rules: Rules, now: Rules, from: string, to: string) {
    && |now| == |rules|
    && forall i | 0 <= i < |rules| ::
         && |now[i]| == |rules[i]|
         && forall j | 0 <= j < |rules[i]| ::
              && now[i][j].rest == rules[i][j].rest
              && now[i][j].service == if rules[i][j].service == Some(from) then Some(to) else rules[i][j].service
  }

  lemma RedirectedMeans(rules: Rules, from: string, to: string)
    ensures IsRedirected(rules, Redirected(rules, from, to), from, to)
  {
  }

  /** After the redirection nothing leads to the old service any more. */
  lemma NothingLeadsBack(rules: Rules, from: string, to: string)
    requires from != to
    ensures !Mentions(Redirected(rules, from, to), from)
  {
  }

  // ---------------------------------------------------------------------------
  // Two services for one path
  // ---------------------------------------------------------------------------

  /** The copies of the paths that lead to a service, leading to another one. */
  function Doubles(paths: seq<Path>, from: string, to: string): seq<Path> {
    if paths == [] then []
    else
      var last := paths[|paths| - 1];
      Doubles(paths[..|paths| - 1], from, to) + if LeadsTo(last, from) then [last.(service := Some(to))] else []
  }

  function Doubled(rules: Rules, from: string, first: string, second: string): Rules {
    seq(|rules|, i requires 0 <= i < |rules| => RedirectPaths(rules[i], from, first) + Doubles(rules[i], from, second))
  }

  /** The paths that were there at the start are gone through; copies are appended. */
  method DoubleInPaths(paths: seq<Path>, from: string, first: string, second: string) returns (doubled: seq<Path>)
    ensures doubled == RedirectPaths(paths, from, first) + Doubles(paths, from, second)
  {
    doubled := paths;
    for i := 0 to |paths|
      invariant |doubled| >= |paths|
      invariant forall k :: 0 <= k < i ==> doubled[k] == Redirect(paths[k], from, first)
      invariant forall k :: i <= k < |paths| ==> doubled[k] == paths[k]
      invariant doubled[|paths|..] == Doubles(paths[..i], from, second)
    {
      DoublesNext(paths, i, from, second);
      if paths[i].service == Some(from) {
        doubled := doubled[i := paths[i].(service := Some(first))];
        doubled := doubled + [paths[i].(service := Some(second))];
      }
    }
    assert paths[..|paths|] == paths;
    assert doubled[..|paths|] == RedirectPaths(paths, from, first);
  }

  lemma DoublesNext(paths: seq<Path>, i: nat, from: string, to: string)
    requires i < |paths|
    ensures Doubles(paths[..i + 1], from, to) ==
            Doubles(paths[..i], from, to) + if LeadsTo(paths[i], from) then [paths[i].(service := Some(to))] else []
  {
    assert paths[..i + 1][..i] == paths[..i];
  }

  method DoubleBackends(rules: Rules, from: string, first: string, second: string) returns (doubled: Rules)
    ensures doubled == Doubled(rules, from, first, second)
  {
    doubled := rules;
    for i := 0 to |rules|
      invariant |doubled| == |rules|
      invariant forall k :: 0 <= k < i ==>
                  doubled[k] == RedirectPaths(rules[k], from, first) + Doubles(rules[k], from, second)
      invariant forall k :: i <= k < |rules| ==> doubled[k] == rules[k]
    {
      var paths := DoubleInPaths(rules[i], from, first, second);
      doubled := doubled[i := paths];
    }
  }

  /** The positions of the paths that lead to a service. */
  function Positions(paths: seq<Path>, from: string): seq<nat> {
    if paths == [] then []
    else
      var n := |paths| - 1;
      Positions(paths[..n], from) + if paths[n].service == Some(from) then [n] else []
  }

  lemma {:induction false} PositionsMean(paths: seq<Path>, from: string)
    ensures forall k :: k in Positions(paths, from) <==> 0 <= k < |paths| && paths[k].service == Some(from)
    ensures forall a, b :: 0 <= a < b < |Positions(paths, from)| ==> Positions(paths, from)[a] < Positions(paths, from)[b]
  {
    if paths != [] {
      var before := Positions(paths[..|paths| - 1], from);
      PositionsMean(paths[..|paths| - 1], from);
      assert forall a :: 0 <= a < |before| ==> before[a] in before;
    }
  }

  lemma {:induction false} DoublesMean(paths: seq<Path>, from: string, to: string)
    ensures var ks, ds := Positions(paths, from), Doubles(paths, from, to);
            && |ds| == |ks|
            && forall a :: 0 <= a < |ks| ==> ks[a] < |paths| && ds[a] == Path(Some(to), paths[ks[a]].rest)
  {
    if paths != [] {
      DoublesMean(paths[..|paths| - 1], from, to);
    }
  }

  /** Rule by rule: every path stays in its place, now leading to the first service if it led to
      the old one; after them come, in the same order, the copies that lead to the second. */
  predicate IsDoubled(rules: Rules, now: Rules, from: string, first: string, second: string) {
    && |now| == |rules|
    && forall i | 0 <= i < |rules| ::
         var paths, ks := rules[i], Positions(rules[i], from);
         && |now[i]| == |paths| + |ks|
         && (forall j | 0 <= j < |paths| ::
               now[i][j] == Path(if paths[j].service == Some(from) then Some(first) else paths[j].service, paths[j].rest))
         && forall a | 0 <= a < |ks| ::
              ks[a] < |paths| && now[i][|paths| + a] == Path(Some(second), paths[ks[a]].rest)
  }

  lemma DoubledMeans(rules: Rules, from: string, first: string, second: string)
    ensures IsDoubled(rules, Doubled(rules, from, first, second), from, first, second)
  {
    forall i | 0 <= i < |rules| {
      DoublesMean(rules[i], from, second);
    }
  }
}
