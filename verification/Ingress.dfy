// The NGINX ingress router: weights and match rules kept in annotations of the canary
// ingress (pkg/router/ingress.go).

module Ingress {
  import opened Options
  import opened Analysis
  import opened Cluster
  import opened Tick
  import opened Decimal
  import opened Metadata
  import opened IngressRules

  type Annotations = map<string, string>

  /** A header match of an A/B test; only these two forms are looked at. */
  datatype HeaderMatch = HeaderMatch(exact: string, regex: string)

  /** `matches` are the header maps of the analysis match conditions. */
  datatype Setup = Setup(prefix: string, matches: seq<map<string, HeaderMatch>>)

  const KUBECTL := "kubectl.kubernetes.io/last-applied-configuration"

  function Key(s: Setup, suffix: string): string {
    s.prefix + "/" + suffix
  }

  /** What an A/B test selects by. */
  datatype Selection = Selection(cookie: string, header: string, value: string, regex: string)

  predicate IsAB(s: Setup) {
    |s.matches| > 0
  }

  /** The annotations of a canary that takes no traffic. */
  function Parked(s: Setup, a: Annotations): Annotations {
    (map k <- Filtered(a) | !Contains(k, Key(s, "canary")) && !Contains(k, KUBECTL) :: a[k])
    [Key(s, "canary") := "true"][Key(s, "canary-weight") := "0"]
  }

  function PutIfSet(a: Annotations, key: string, value: string): Annotations {
    if value != "" then a[key := value] else a
  }

  /** The annotations of an A/B test; what is dropped is decided by the values. */
  function Selecting(s: Setup, a: Annotations, t: Selection): Annotations {
    var kept := (map k <- Filtered(a) | !Contains(a[k], Key(s, "canary")) :: a[k])
                [Key(s, "canary") := "true"];
    var cookie := PutIfSet(kept, Key(s, "canary-by-cookie"), t.cookie);
    var header := PutIfSet(cookie, Key(s, "canary-by-header"), t.header);
    var value := PutIfSet(header, Key(s, "canary-by-header-value"), t.value);
    PutIfSet(value, Key(s, "canary-by-header-pattern"), t.regex)
  }

  function Routed(s: Setup, a: Annotations, t: Selection, canaryWeight: int): Annotations {
    var routed := if IsAB(s) then Selecting(s, a, t) else a[Key(s, "canary-weight") := Itoa(canaryWeight)];
    if canaryWeight > 0 then routed[Key(s, "canary") := "true"] else Parked(s, routed)
  }

  predicate Selects(s: Setup, a: Annotations) {
    Key(s, "canary-by-cookie") in a || Key(s, "canary-by-header") in a
  }

  /** None if the weight is not a number. */
  function Read(s: Setup, a: Annotations): Option<Routes> {
    if IsAB(s) && Selects(s, a) then Some(ALL_TO_CANARY)
    else if Key(s, "canary-weight") !in a then Some(ALL_TO_PRIMARY)
    else
      match Atoi(a[Key(s, "canary-weight")])
      case None => None
      case Some(w) => Some(Routes(100 - w, w, false))
  }

  // ---------------------------------------------------------------------------
  // The choice of a selection
  // ---------------------------------------------------------------------------

  /** The last condition that names the cookie decides on it. */
  function CookieOf(ms: seq<map<string, HeaderMatch>>): string {
    if ms == [] then ""
    else if "cookie" in ms[|ms| - 1] then ms[|ms| - 1]["cookie"].exact
    else CookieOf(ms[..|ms| - 1])
  }

  predicate NamesHeader(m: map<string, HeaderMatch>) {
    exists k <- m :: k != "cookie"
  }

  /** Header, value and pattern all come from one header of the condition. */
  predicate TakenFrom(m: map<string, HeaderMatch>, t: Selection) {
    t.header != "cookie" && t.header in m && t.value == m[t.header].exact && t.regex == m[t.header].regex
  }

  /** The last condition that names a header decides on it; among several headers of that
      condition any may be chosen. */
  predicate MayChoose(ms: seq<map<string, HeaderMatch>>, t: Selection) {
    if ms == [] then t.header == t.value == t.regex == ""
    else if NamesHeader(ms[|ms| - 1]) then TakenFrom(ms[|ms| - 1], t)
    else MayChoose(ms[..|ms| - 1], t)
  }

  /** One condition, its headers visited in any order. */
  method ChooseFrom(m: map<string, HeaderMatch>, before: Selection) returns (t: Selection)
    ensures t.cookie == if "cookie" in m then m["cookie"].exact else before.cookie
    ensures if NamesHeader(m) then TakenFrom(m, t) else t == before.(cookie := t.cookie)
  {
    t := before;
    var todo := m.Keys;
    while todo != {}
      invariant todo <= m.Keys
      invariant t.cookie == if "cookie" in m && "cookie" !in todo then m["cookie"].exact else before.cookie
      invariant TakenFrom(m, t) || (t == before.(cookie := t.cookie) && forall k <- m :: k == "cookie" || k in todo)
      invariant (forall k <- m :: k == "cookie") ==> t == before.(cookie := t.cookie)
      decreases |todo|
    {
      var k :| k in todo;
      todo := todo - {k};
      if k == "cookie" {
        t := t.(cookie := m[k].exact);
      } else {
        t := t.(header := k, regex := m[k].regex, value := m[k].exact);
      }
    }
  }

  /** The cookie comes from the last condition that names it, header, value and pattern from one
      header of the last condition that names a header; what no condition names is empty. */
  predicate IsChoice(ms: seq<map<string, HeaderMatch>>, t: Selection) {
    && (if forall m <- ms :: "cookie" !in m then t.cookie == ""
        else
          exists i: nat | i < |ms| && "cookie" in ms[i] ::
            t.cookie == ms[i]["cookie"].exact && forall j | i < j < |ms| :: "cookie" !in ms[j])
    && (if forall m <- ms, k <- m :: k == "cookie" then t.header == t.value == t.regex == ""
        else
          exists i: nat | i < |ms| && t.header in ms[i] && t.header != "cookie" ::
            && t.value == ms[i][t.header].exact && t.regex == ms[i][t.header].regex
            && forall j | i < j < |ms| :: forall k <- ms[j] :: k == "cookie")
  }

  lemma {:induction false} ChoiceMeans(ms: seq<map<string, HeaderMatch>>, t: Selection)
    requires t.cookie == CookieOf(ms) && MayChoose(ms, t)
    ensures IsChoice(ms, t)
  {
    CookieMeans(ms, t.cookie);
    HeaderMeans(ms, t);
  }

  lemma {:induction false} CookieMeans(ms: seq<map<string, HeaderMatch>>, cookie: string)
    requires cookie == CookieOf(ms)
    ensures if forall m <- ms :: "cookie" !in m then cookie == ""
            else
              exists i: nat | i < |ms| && "cookie" in ms[i] ::
                cookie == ms[i]["cookie"].exact && forall j | i < j < |ms| :: "cookie" !in ms[j]
  {
    if ms != [] {
      var n := |ms| - 1;
      assert ms == ms[..n] + [ms[n]];
      if "cookie" !in ms[n] {
        CookieMeans(ms[..n], cookie);
        assert forall i | 0 <= i < n :: ms[..n][i] == ms[i];
      }
    }
  }

  lemma {:induction false} HeaderMeans(ms: seq<map<string, HeaderMatch>>, t: Selection)
    requires MayChoose(ms, t)
    ensures if forall m <- ms, k <- m :: k == "cookie" then t.header == t.value == t.regex == ""
            else
              exists i: nat | i < |ms| && t.header in ms[i] && t.header != "cookie" ::
                && t.value == ms[i][t.header].exact && t.regex == ms[i][t.header].regex
                && forall j | i < j < |ms| :: forall k <- ms[j] :: k == "cookie"
  {
    if ms != [] {
      var n := |ms| - 1;
      assert ms == ms[..n] + [ms[n]];
      if !NamesHeader(ms[n]) {
        HeaderMeans(ms[..n], t);
        assert forall i | 0 <= i < n :: ms[..n][i] == ms[i];
      }
    }
  }

  method Choose(ms: seq<map<string, HeaderMatch>>) returns (t: Selection)
    ensures t.cookie == CookieOf(ms) && MayChoose(ms, t) && IsChoice(ms, t)
  {
    t := Selection("", "", "", "");
    for i := 0 to |ms|
      invariant t.cookie == CookieOf(ms[..i]) && MayChoose(ms[..i], t)
    {
      ghost var before := t;
      t := ChooseFrom(ms[i], t);
      assert ms[..i + 1][..i] == ms[..i];
      SameChoice(ms[..i], before, t.cookie);
    }
    assert ms[..|ms|] == ms;
    ChoiceMeans(ms, t);
  }

  lemma {:induction false} SameChoice(ms: seq<map<string, HeaderMatch>>, t: Selection, cookie: string)
    ensures MayChoose(ms, t) <==> MayChoose(ms, t.(cookie := cookie))
  {
    if ms != [] {
      SameChoice(ms[..|ms| - 1], t, cookie);
    }
  }

  // ---------------------------------------------------------------------------
  // What the annotations say
  // ---------------------------------------------------------------------------

  lemma KeysContainCanary(s: Setup)
    ensures Contains(Key(s, "canary-by-cookie"), Key(s, "canary"))
    ensures Contains(Key(s, "canary-by-header"), Key(s, "canary"))
    ensures Key(s, "canary-by-cookie") != Key(s, "canary") && Key(s, "canary") != Key(s, "canary-weight")
    ensures Key(s, "canary-by-cookie") != Key(s, "canary-weight")
    ensures Key(s, "canary-by-header") != Key(s, "canary")
    ensures Key(s, "canary-by-header") != Key(s, "canary-weight")
  {
    var c, k, h, w := Key(s, "canary"), Key(s, "canary-by-cookie"), Key(s, "canary-by-header"), Key(s, "canary-weight");
    assert k[..|c|] == c && h[..|c|] == c;
    assert k[0..] == k && h[0..] == h;
    assert |k| == |s.prefix| + 17 && |h| == |s.prefix| + 17 && |w| == |s.prefix| + 14 && |c| == |s.prefix| + 7;
  }

  lemma OwnKeysContainCanary(s: Setup, suffix: string)
    requires "canary" <= suffix
    ensures Contains(Key(s, suffix), Key(s, "canary"))
  {
    var k, c := Key(s, suffix), Key(s, "canary");
    assert k[..|c|] == c && k[0..] == k;
  }

  lemma OwnKeysDiffer(s: Setup)
    ensures Key(s, "canary-by-header-value") !in
            {Key(s, "canary-weight"), Key(s, "canary-by-cookie"), Key(s, "canary-by-header")}
    ensures Key(s, "canary-by-header-pattern") !in
            {Key(s, "canary-weight"), Key(s, "canary-by-cookie"), Key(s, "canary-by-header")}
  {
    assert |Key(s, "canary-by-header-value")| == |s.prefix| + 23;
    assert |Key(s, "canary-by-header-pattern")| == |s.prefix| + 25;
    assert |Key(s, "canary-weight")| == |s.prefix| + 14;
    assert |Key(s, "canary-by-cookie")| == |Key(s, "canary-by-header")| == |s.prefix| + 17;
  }

  /** A canary ingress that takes no traffic: no weight, and nothing selects it. */
  predicate IsParked(s: Setup, a: Annotations) {
    var p := s.prefix + "/";
    && p + "canary" in a && a[p + "canary"] == "true"
    && p + "canary-weight" in a && a[p + "canary-weight"] == "0"
    && p + "canary-by-cookie" !in a && p + "canary-by-header" !in a
    && p + "canary-by-header-value" !in a && p + "canary-by-header-pattern" !in a
  }

  /** The annotation is set to the value, if there is one. */
  predicate HasIfSet(a: Annotations, key: string, value: string) {
    value != "" ==> key in a && a[key] == value
  }

  /** A canary ingress that takes this weight of the traffic, or what the selection says. */
  predicate IsRouted(s: Setup, a: Annotations, t: Selection, canaryWeight: int) {
    var p := s.prefix + "/";
    if canaryWeight <= 0 then IsParked(s, a)
    else
      && p + "canary" in a && a[p + "canary"] == "true"
      && if s.matches == [] then p + "canary-weight" in a && a[p + "canary-weight"] == Itoa(canaryWeight)
         else
           && HasIfSet(a, p + "canary-by-cookie", t.cookie) && HasIfSet(a, p + "canary-by-header", t.header)
           && HasIfSet(a, p + "canary-by-header-value", t.value) && HasIfSet(a, p + "canary-by-header-pattern", t.regex)
  }

  lemma ParkedMeans(s: Setup, a: Annotations)
    ensures IsParked(s, Parked(s, a))
  {
    KeysContainCanary(s);
    OwnKeysDiffer(s);
    OwnKeysContainCanary(s, "canary-by-header-value");
    OwnKeysContainCanary(s, "canary-by-header-pattern");
  }

  lemma RoutedMeans(s: Setup, a: Annotations, t: Selection, canaryWeight: int)
    ensures IsRouted(s, Routed(s, a, t, canaryWeight), t, canaryWeight)
  {
    if canaryWeight <= 0 {
      ParkedMeans(s, if IsAB(s) then Selecting(s, a, t) else a[Key(s, "canary-weight") := Itoa(canaryWeight)]);
    } else if IsAB(s) {
      SelectingMeans(s, a, t);
    } else {
      KeysContainCanary(s);
    }
  }

  lemma SelectingMeans(s: Setup, a: Annotations, t: Selection)
    ensures var made, p := Selecting(s, a, t)[Key(s, "canary") := "true"], s.prefix + "/";
            && HasIfSet(made, p + "canary-by-cookie", t.cookie) && HasIfSet(made, p + "canary-by-header", t.header)
            && HasIfSet(made, p + "canary-by-header-value", t.value)
            && HasIfSet(made, p + "canary-by-header-pattern", t.regex)
  {
    var c, h := Key(s, "canary-by-cookie"), Key(s, "canary-by-header");
    assert c[|s.prefix| + 11] == 'c' && h[|s.prefix| + 11] == 'h';
    assert |Key(s, "canary")| == |s.prefix| + 7;
    OwnKeysDiffer(s);
    assert |Key(s, "canary-by-header-value")| == |s.prefix| + 23;
    assert |Key(s, "canary-by-header-pattern")| == |s.prefix| + 25;
  }

  // ---------------------------------------------------------------------------
  // The router
  // ---------------------------------------------------------------------------

  /** The canary ingress behind the API server; a call may be unable to read or to write. */
  class IngressRouter {
    const setup: Setup
    const apexName: string
    var annotations: Option<Annotations>
    var rules: Rules

    /** The longer keys the source also looks for all contain the shortest one. */
    method MakeAnnotations(a: Annotations) returns (made: Annotations)
      ensures made == Parked(setup, a)
    {
      var filtered := FilterMetadata(a);
      made := map[];
      var todo := filtered.Keys;
      while todo != {}
        invariant todo <= filtered.Keys
        invariant made == map k <- filtered | k !in todo && !Contains(k, Key(setup, "canary")) && !Contains(k, KUBECTL) :: a[k]
        decreases |todo|
      {
        var k :| k in todo;
        todo := todo - {k};
        if !Contains(k, Key(setup, "canary")) && !Contains(k, KUBECTL) {
          made := made[k := filtered[k]];
        }
      }
      made := made[Key(setup, "canary") := "true"];
      made := made[Key(setup, "canary-weight") := "0"];
    }

    method FilterByValue(a: Annotations) returns (kept: Annotations)
      ensures kept == map k <- Filtered(a) | !Contains(a[k], Key(setup, "canary")) :: a[k]
    {
      var filtered := FilterMetadata(a);
      kept := map[];
      var todo := filtered.Keys;
      while todo != {}
        invariant todo <= filtered.Keys
        invariant kept == map k <- filtered | k !in todo && !Contains(a[k], Key(setup, "canary")) :: a[k]
        decreases |todo|
      {
        var k :| k in todo;
        todo := todo - {k};
        if !Contains(filtered[k], Key(setup, "canary")) {
          kept := kept[k := filtered[k]];
        }
      }
    }

    method MakeHeaderAnnotations(a: Annotations, t: Selection) returns (made: Annotations)
      ensures made == Selecting(setup, a, t)
    {
      made := FilterByValue(a);
      made := made[Key(setup, "canary") := "true"];
      if t.cookie != "" {
        made := made[Key(setup, "canary-by-cookie") := t.cookie];
      }
      if t.header != "" {
        made := made[Key(setup, "canary-by-header") := t.header];
      }
      if t.value != "" {
        made := made[Key(setup, "canary-by-header-value") := t.value];
      }
      if t.regex != "" {
        made := made[Key(setup, "canary-by-header-pattern") := t.regex];
      }
    }

    function CanaryName(): string {
      apexName + "-canary"
    }

    /** The canary ingress follows the rules of the apex ingress, with the canary service in
        the place of the apex service. A new one is parked; an existing one keeps its
        annotations. */
    method Reconcile(apex: Annotations, apexRules: Rules, readable: bool, writable: bool) returns (ok: bool)
      modifies this
      ensures var wanted := Redirected(apexRules, apexName, CanaryName());
              && (ok <==> && readable && Mentions(apexRules, apexName)
                          && (writable || (old(annotations).Some? && old(rules) == wanted)))
              && (!ok ==> annotations == old(annotations) && rules == old(rules))
              && (ok ==> rules == wanted && annotations ==
                           if old(annotations).None? then Some(Parked(setup, apex)) else old(annotations))
      ensures ok ==> IsRedirected(apexRules, rules, apexName, apexName + "-canary")
      ensures ok && old(annotations).None? ==> IsParked(setup, annotations.value)
    {
      RedirectedMeans(apexRules, apexName, CanaryName());
      ParkedMeans(setup, apex);
      if !readable {
        return false;
      }
      var redirected, backendExists := RedirectBackends(apexRules, apexName, CanaryName());
      if !backendExists {
        return false;
      }
      if annotations.None? {
        if !writable {
          return false;
        }
        var made := MakeAnnotations(apex);
        annotations := Some(made);
        rules := redirected;
      } else if rules != redirected {
        if !writable {
          return false;
        }
        rules := redirected;
      }
      ok := true;
    }

    method GetRoutes(readable: bool) returns (routes: Option<Routes>)
      ensures routes == if !readable || annotations.None? then None else Read(setup, annotations.value)
    {
      if !readable || annotations.None? {
        return None;
      }
      var a := annotations.value;
      if |setup.matches| > 0 {
        if Key(setup, "canary-by-cookie") in a || Key(setup, "canary-by-header") in a {
          return Some(Routes(0, 100, false));
        }
      }
      var canaryWeight := 0;
      if Key(setup, "canary-weight") in a {
        var value := Atoi(a[Key(setup, "canary-weight")]);
        if value.None? {
          return None;
        }
        canaryWeight := value.value;
      }
      return Some(Routes(100 - canaryWeight, canaryWeight, false));
    }

    /** The primary weight and the mirror flag are not looked at. */
    method SetRoutes(canaryWeight: int, readable: bool, writable: bool) returns (ok: bool, t: Selection)
      modifies this`annotations
      ensures ok <==> readable && writable && old(annotations).Some?
      ensures !ok ==> annotations == old(annotations)
      ensures t.cookie == CookieOf(setup.matches) && MayChoose(setup.matches, t) && IsChoice(setup.matches, t)
      ensures ok ==> annotations == Some(Routed(setup, old(annotations).value, t, canaryWeight))
      ensures ok ==> IsRouted(setup, annotations.value, t, canaryWeight)
    {
      t := Choose(setup.matches);
      if !readable || annotations.None? {
        return false, t;
      }
      var a := annotations.value;
      if |setup.matches| > 0 {
        a := MakeHeaderAnnotations(a, t);
      } else {
        a := a[Key(setup, "canary-weight") := Itoa(canaryWeight)];
      }
      if canaryWeight > 0 {
        a := a[Key(setup, "canary") := "true"];
      } else {
        a := MakeAnnotations(a);
      }
      if !writable {
        return false, t;
      }
      RoutedMeans(setup, annotations.value, t, canaryWeight);
      annotations := Some(a);
      ok := true;
    }
  }

  // ---------------------------------------------------------------------------
  // Reading back
  // ---------------------------------------------------------------------------

  lemma ParkedSelectsNothing(s: Setup, a: Annotations)
    ensures !Selects(s, Parked(s, a))
    ensures Key(s, "canary-weight") in Parked(s, a) && Parked(s, a)[Key(s, "canary-weight")] == "0"
  {
    KeysContainCanary(s);
  }

  lemma ParkedReadsPrimary(s: Setup, a: Annotations)
    ensures Read(s, Parked(s, a)) == Some(ALL_TO_PRIMARY)
  {
    ParkedSelectsNothing(s, a);
    ZeroReadsBack();
  }

  lemma WeightIsRead(s: Setup, a: Annotations, w: nat)
    requires !IsAB(s) && w <= MAX_INT && Key(s, "canary-weight") in a && a[Key(s, "canary-weight")] == Itoa(w)
    ensures Read(s, a) == Some(Routes(100 - w, w, false))
  {
    AtoiOfItoa(w);
  }

  lemma WeightReadsBack(s: Setup, a: Annotations, w: nat)
    requires !IsAB(s) && w <= MAX_INT && Key(s, "canary-weight") in a && a[Key(s, "canary-weight")] == Itoa(w)
    ensures Read(s, a[Key(s, "canary") := "true"]) == Some(Routes(100 - w, w, false))
  {
    KeysContainCanary(s);
    WeightIsRead(s, a[Key(s, "canary") := "true"], w);
  }

  /** A canary weight is read back exactly if it is not negative, with the rest on the
      primary. */
  lemma WeightsReadBack(s: Setup, a: Annotations, t: Selection, canaryWeight: int)
    requires !IsAB(s) && -MAX_INT <= canaryWeight <= MAX_INT
    ensures Read(s, Routed(s, a, t, canaryWeight)) == Some(Routes(100 - canaryWeight, canaryWeight, false)) <==>
            canaryWeight >= 0
    ensures canaryWeight <= 0 ==> Read(s, Routed(s, a, t, canaryWeight)) == Some(ALL_TO_PRIMARY)
  {
    if canaryWeight > 0 {
      WeightReadsBack(s, a[Key(s, "canary-weight") := Itoa(canaryWeight)], canaryWeight);
    } else {
      ParkedReadsPrimary(s, a[Key(s, "canary-weight") := Itoa(canaryWeight)]);
    }
  }

  /** An A/B test with a cookie or a header is all or nothing, so that a weight within 0..100
      is read back exactly if it is 0 or 100. */
  lemma SelectionReadsBack(s: Setup, a: Annotations, t: Selection, canaryWeight: int)
    requires IsAB(s) && (t.cookie != "" || t.header != "")
    ensures Read(s, Routed(s, a, t, canaryWeight)) == Some(if canaryWeight > 0 then ALL_TO_CANARY else ALL_TO_PRIMARY)
    ensures 0 <= canaryWeight <= 100 ==>
              (Read(s, Routed(s, a, t, canaryWeight)) == Some(Routes(100 - canaryWeight, canaryWeight, false)) <==>
               canaryWeight == 0 || canaryWeight == 100)
  {
    if canaryWeight > 0 {
      KeysContainCanary(s);
    } else {
      ParkedReadsPrimary(s, Selecting(s, a, t));
    }
  }

  /** Nothing selects the canary, and it has no weight. */
  predicate SelectsNothing(s: Setup, a: Annotations) {
    !Selects(s, a) && Read(s, a) == Some(ALL_TO_PRIMARY)
  }

  lemma EmptySelectionChooses(s: Setup, a: Annotations, t: Selection)
    requires t.cookie == "" && t.header == "" && !Selects(s, a)
    ensures var made, w := Selecting(s, a, t)[Key(s, "canary") := "true"], Key(s, "canary-weight");
            !Selects(s, made) && (w in made ==> w in a && made[w] == a[w])
  {
    KeysContainCanary(s);
    OwnKeysDiffer(s);
  }

  lemma EmptySelectionKeeps(s: Setup, a: Annotations, t: Selection, canaryWeight: int)
    requires IsAB(s) && t.cookie == "" && t.header == "" && SelectsNothing(s, a)
    ensures SelectsNothing(s, Routed(s, a, t, canaryWeight))
  {
    var made := Selecting(s, a, t);
    if canaryWeight > 0 {
      EmptySelectionChooses(s, a, t);
      assert Routed(s, a, t, canaryWeight) == made[Key(s, "canary") := "true"];
    } else {
      ParkedSelectsNothing(s, made);
      ParkedReadsPrimary(s, made);
      assert Routed(s, a, t, canaryWeight) == Parked(s, made);
    }
  }

  /** An A/B test whose conditions name neither a header nor the cookie never reaches the
      canary: whatever weights are set, all traffic is read back on the primary. */
  lemma {:induction false} EmptySelectionStaysPrimary(s: Setup, a: Annotations, t: Selection, weights: seq<int>)
    requires IsAB(s) && t.cookie == "" && t.header == "" && SelectsNothing(s, a)
    ensures SelectsNothing(s, AfterWeights(s, a, t, weights))
  {
    if weights != [] {
      var init := weights[..|weights| - 1];
      EmptySelectionStaysPrimary(s, a, t, init);
      EmptySelectionKeeps(s, AfterWeights(s, a, t, init), t, weights[|weights| - 1]);
    }
  }

  /** From a parked ingress, for every selection: a weight within 0..100 is read back exactly
      if it is 0, or 100 and the conditions name a header or the cookie. */
  lemma ABReadsBackExactly(s: Setup, a: Annotations, t: Selection, canaryWeight: int)
    requires IsAB(s) && SelectsNothing(s, a) && 0 <= canaryWeight <= 100
    ensures Read(s, Routed(s, a, t, canaryWeight)) == Some(Routes(100 - canaryWeight, canaryWeight, false)) <==>
            canaryWeight == 0 || (canaryWeight == 100 && (t.cookie != "" || t.header != ""))
  {
    if t.cookie != "" || t.header != "" {
      SelectionReadsBack(s, a, t, canaryWeight);
    } else {
      EmptySelectionKeeps(s, a, t, canaryWeight);
    }
  }

  /** One tick of a stepwise promotion. */
  function ShiftOnce(s: Setup, a: Annotations, t: Selection, step: int): Annotations {
    var r := Read(s, a);
    if r.None? then a else Routed(s, a, t, ShiftedBack(r.value, step).canary)
  }

  function Iterate<A>(f: A -> A, a: A, k: nat): A {
    if k == 0 then a else f(Iterate(f, a, k - 1))
  }

  lemma {:induction false} IterateKeeps<A>(f: A -> A, p: A -> bool, a: A, k: nat)
    requires p(a) && forall x | p(x) :: p(f(x))
    ensures p(Iterate(f, a, k))
  {
    if k > 0 {
      IterateKeeps(f, p, a, k - 1);
    }
  }

  /** The annotations after `k` such ticks. */
  function Promoted(s: Setup, a: Annotations, t: Selection, step: int, k: nat): Annotations {
    Iterate((x: Annotations) => ShiftOnce(s, x, t, step), a, k)
  }

  lemma ShiftReadsBack(s: Setup, a: Annotations, t: Selection, step: int)
    requires IsAB(s) && (t.cookie != "" || t.header != "") && 0 < step < 100
    requires Read(s, a) == Some(ALL_TO_CANARY)
    ensures Read(s, ShiftOnce(s, a, t, step)) == Some(ALL_TO_CANARY)
  {
    SelectionReadsBack(s, a, t, ShiftedBack(ALL_TO_CANARY, step).canary);
  }

  /** Main result on stepwise promotion of an A/B test: every tick decides to record a weight
      and to go on promoting, exactly if the step is below 100; the rollout then never leaves
      Promoting. */
  lemma SteppedPromotionStalls(s: Setup, a: Annotations, t: Selection, cfg: Config)
    requires IsAB(s) && (t.cookie != "" || t.header != "") && Read(s, a) == Some(ALL_TO_CANARY)
    requires cfg.provider.Mesh? && cfg.stepWeightPromotion > 0
    ensures (forall k: nat :: GoesOnPromoting(cfg, Read(s, Promoted(s, a, t, cfg.stepWeightPromotion, k)))) <==>
            cfg.stepWeightPromotion < 100
  {
    var step := cfg.stepWeightPromotion;
    if step < 100 {
      var shift := (x: Annotations) => ShiftOnce(s, x, t, step);
      var full := (x: Annotations) => Read(s, x) == Some(ALL_TO_CANARY);
      forall x | full(x) ensures full(shift(x)) {
        ShiftReadsBack(s, x, t, step);
      }
      forall k: nat ensures GoesOnPromoting(cfg, Read(s, Promoted(s, a, t, step, k))) {
        IterateKeeps(shift, full, a, k);
        assert full(Promoted(s, a, t, step, k));
      }
    } else {
      assert Promoted(s, a, t, step, 0) == a;
      assert !GoesOnPromoting(cfg, Read(s, Promoted(s, a, t, step, 0)));
    }
  }

  /** The promotion is not over after a tick that reads these routes. */
  predicate GoesOnPromoting(cfg: Config, r: Option<Routes>)
    requires cfg.stepWeightPromotion != 0
  {
    && r.Some?
    && var move := PromotionShift(cfg, r.value);
       move.AdvanceTo? && move.counter.SetStatusWeight?
  }

  // ---------------------------------------------------------------------------
  // The user's annotations
  // ---------------------------------------------------------------------------

  /** An annotation the router has no business with. */
  predicate IsForeign(s: Setup, k: string, v: string) {
    && !Contains(k, TOOLKIT) && !Contains(k, KUBECTL) && !Contains(k, Key(s, "canary"))
    && (IsAB(s) ==> !Contains(v, Key(s, "canary")))
  }

  function AfterWeights(s: Setup, a: Annotations, t: Selection, weights: seq<int>): Annotations {
    if weights == [] then a
    else Routed(s, AfterWeights(s, a, t, weights[..|weights| - 1]), t, weights[|weights| - 1])
  }

  lemma NotAnOwnKey(s: Setup, k: string)
    requires !Contains(k, Key(s, "canary"))
    ensures k != Key(s, "canary") && k != Key(s, "canary-weight")
    ensures k != Key(s, "canary-by-cookie") && k != Key(s, "canary-by-header")
    ensures k != Key(s, "canary-by-header-value") && k != Key(s, "canary-by-header-pattern")
  {
    OwnKeysContainCanary(s, "canary");
    OwnKeysContainCanary(s, "canary-weight");
    OwnKeysContainCanary(s, "canary-by-cookie");
    OwnKeysContainCanary(s, "canary-by-header");
    OwnKeysContainCanary(s, "canary-by-header-value");
    OwnKeysContainCanary(s, "canary-by-header-pattern");
  }

  lemma SelectingOnForeign(s: Setup, a: Annotations, t: Selection, k: string)
    requires !Contains(k, Key(s, "canary")) && k in a
    ensures k in Selecting(s, a, t) <==> !Contains(k, TOOLKIT) && !Contains(a[k], Key(s, "canary"))
    ensures k in Selecting(s, a, t) ==> Selecting(s, a, t)[k] == a[k]
  {
    NotAnOwnKey(s, k);
  }

  lemma ParkedOnForeign(s: Setup, a: Annotations, k: string)
    requires !Contains(k, Key(s, "canary"))
    ensures k in Parked(s, a) <==> k in a && !Contains(k, TOOLKIT) && !Contains(k, KUBECTL)
    ensures k in Parked(s, a) ==> Parked(s, a)[k] == a[k]
  {
    NotAnOwnKey(s, k);
  }

  /** What a weight change does to an annotation that is none of the router's own: exactly these
      are dropped, and none is changed. */
  lemma ForeignExactly(s: Setup, a: Annotations, t: Selection, w: int, k: string)
    requires !Contains(k, Key(s, "canary"))
    ensures k in Routed(s, a, t, w) <==>
              && k in a
              && (s.matches != [] ==> !Contains(k, TOOLKIT) && !Contains(a[k], Key(s, "canary")))
              && (w <= 0 ==> !Contains(k, TOOLKIT) && !Contains(k, KUBECTL))
    ensures k in Routed(s, a, t, w) ==> Routed(s, a, t, w)[k] == a[k]
  {
    var routed := if IsAB(s) then Selecting(s, a, t) else a[Key(s, "canary-weight") := Itoa(w)];
    NotAnOwnKey(s, k);
    if k in a {
      SelectingOnForeign(s, a, t, k);
    } else if k in Selecting(s, a, t) {
      SelectingIsOwn(s, a, t, k);
    }
    ParkedOnForeign(s, routed, k);
  }

  lemma SelectingIsOwn(s: Setup, a: Annotations, t: Selection, k: string)
    requires !Contains(k, Key(s, "canary")) && k in Selecting(s, a, t)
    ensures k in a
  {
    NotAnOwnKey(s, k);
  }

  lemma RoutedKeepsForeign(s: Setup, a: Annotations, t: Selection, w: int, k: string)
    requires k in a && IsForeign(s, k, a[k])
    ensures k in Routed(s, a, t, w) && Routed(s, a, t, w)[k] == a[k]
  {
    var routed := if IsAB(s) then Selecting(s, a, t) else a[Key(s, "canary-weight") := Itoa(w)];
    NotAnOwnKey(s, k);
    SelectingOnForeign(s, a, t, k);
    ParkedOnForeign(s, routed, k);
  }

  /** No sequence of weight changes touches a foreign annotation. */
  lemma {:induction false} ForeignAnnotationsSurvive(s: Setup, a: Annotations, t: Selection, weights: seq<int>, k: string)
    requires k in a && IsForeign(s, k, a[k])
    ensures var after := AfterWeights(s, a, t, weights); k in after && after[k] == a[k]
  {
    if weights != [] {
      ForeignAnnotationsSurvive(s, a, t, weights[..|weights| - 1], k);
      RoutedKeepsForeign(s, AfterWeights(s, a, t, weights[..|weights| - 1]), t, weights[|weights| - 1], k);
    }
  }

  /** An A/B test drops annotations by what they say, not by what they are called. */
  lemma MentionOfCanaryIsDropped(s: Setup, a: Annotations, t: Selection, k: string, w: int)
    requires IsAB(s) && k in a && !Contains(k, Key(s, "canary")) && Contains(a[k], Key(s, "canary"))
    ensures k !in Routed(s, a, t, w)
  {
    NotAnOwnKey(s, k);
    SelectingOnForeign(s, a, t, k);
    ParkedOnForeign(s, Selecting(s, a, t), k);
  }
}
