// The Skipper router: weights and a control predicate kept in annotations of the canary
// ingress (pkg/router/skipper.go).

module Skipper {
  import opened Options
  import opened Predicates
  import Metadata
  import opened IngressRules

  const ENABLED := "Weight(100)"
  const DISABLED := "False()"

  predicate IsControl(p: string) {
    p == ENABLED || p == DISABLED
  }

  predicate IsKept(p: string) {
    p != "" && !IsControl(p)
  }

  function Keep(ps: seq<string>): seq<string> {
    if ps == [] then []
    else Keep(ps[..|ps| - 1]) + if IsKept(ps[|ps| - 1]) then [ps[|ps| - 1]] else []
  }

  /** The predicates of the user, in their order. */
  function UserPredicates(raw: string): seq<string> {
    Keep(Parts(raw))
  }

  function Inserted(raw: string, p: string): string {
    Join([p] + UserPredicates(raw))
  }

  lemma {:induction false} TrimAllOfPrefix(ps: seq<string>, i: nat)
    requires i < |ps|
    ensures |TrimAll(ps)| == |ps| && TrimAll(ps)[i] == Trim(ps[i])
  {
    TrimAllOfCons(ps[0], ps[1..]);
    assert [ps[0]] + ps[1..] == ps;
    if i > 0 {
      TrimAllOfPrefix(ps[1..], i - 1);
    } else if |ps| > 1 {
      TrimAllOfPrefix(ps[1..], 0);
    }
  }

  lemma KeepNext(ps: seq<string>, i: nat)
    requires i < |ps|
    ensures Keep(ps[..i + 1]) == Keep(ps[..i]) + if IsKept(ps[i]) then [ps[i]] else []
  {
    assert ps[..i + 1][..i] == ps[..i];
  }

  /** The predicates kept of the first parts. */
  ghost function KeptOf(raw: string, i: nat): seq<string> {
    if i <= |Parts(raw)| then Keep(Parts(raw)[..i]) else UserPredicates(raw)
  }

  lemma PartAt(raw: string, i: nat)
    requires i < |Split(raw)|
    ensures var p := Trim(Split(raw)[i]);
            KeptOf(raw, i + 1) ==
            if p == "" || p == ENABLED || p == DISABLED then KeptOf(raw, i) else KeptOf(raw, i) + [p]
  {
    TrimAllOfPrefix(Split(raw), i);
    KeepNext(Parts(raw), i);
  }

  lemma AllParts(raw: string)
    ensures KeptOf(raw, 0) == [] && KeptOf(raw, |Split(raw)|) == UserPredicates(raw)
  {
    TrimAllOfPrefix(Split(raw), 0);
    assert Parts(raw)[..|Parts(raw)|] == Parts(raw);
  }

  /** One round of the loop: the part is left out or appended. */
  lemma KeepsOrDrops(predicates: seq<string>, insert: string, raw: string, i: nat, p: string)
    requires i < |Split(raw)| && p == Trim(Split(raw)[i]) && predicates == [insert] + KeptOf(raw, i)
    ensures [insert] + KeptOf(raw, i + 1) ==
            if p == "" || p == ENABLED || p == DISABLED then predicates else predicates + [p]
  {
    PartAt(raw, i);
  }

  method InsertPredicate(raw: string, insert: string) returns (r: string)
    ensures r == Inserted(raw, insert)
  {
    var split := Split(raw);
    var predicates := [insert];
    AllParts(raw);
    for i := 0 to |split|
      invariant predicates == [insert] + KeptOf(raw, i)
    {
      var p := Trim(split[i]);
      KeepsOrDrops(predicates, insert, raw, i, p);
      if p == "" || p == ENABLED || p == DISABLED {
        continue;
      }
      predicates := predicates + [p];
    }
    r := Join(predicates);
  }

  // ---------------------------------------------------------------------------
  // The canonical form
  // ---------------------------------------------------------------------------

  lemma {:induction false} PartsAreClean(ps: seq<string>)
    requires forall p <- ps :: Whole(p)
    ensures forall p <- TrimAll(ps) :: Clean(p)
  {
    if ps != [] {
      TrimKeepsWhole(ps[0]);
      TrimIsIdempotent(ps[0]);
      PartsAreClean(ps[1..]);
    }
  }

  lemma {:induction false} KeepOfSum(ps: seq<string>, qs: seq<string>)
    ensures Keep(ps + qs) == Keep(ps) + Keep(qs)
  {
    if qs == [] {
      assert ps + qs == ps;
    } else {
      assert (ps + qs)[..|ps + qs| - 1] == ps + qs[..|qs| - 1];
      KeepOfSum(ps, qs[..|qs| - 1]);
    }
  }

  lemma {:induction false} KeepIsIdempotent(ps: seq<string>)
    ensures Keep(Keep(ps)) == Keep(ps)
    ensures forall p <- Keep(ps) :: p in ps && IsKept(p)
  {
    if ps != [] {
      var init, last := ps[..|ps| - 1], ps[|ps| - 1];
      KeepIsIdempotent(init);
      KeepOfSum(Keep(init), if IsKept(last) then [last] else []);
    }
  }

  lemma CleanText(p: string)
    requires p != "" && !IsSpace(p[0]) && !IsSpace(p[|p| - 1]) && '&' !in p
    ensures Clean(p)
  {
    assert forall i | 0 <= i < |p| :: p[i] in p;
  }

  lemma ControlIsClean(p: string)
    requires IsControl(p)
    ensures Clean(p)
  {
    CleanText(p);
  }

  lemma CleanJoin(p: string, users: seq<string>)
    requires Clean(p) && forall u <- users :: Clean(u)
    ensures Parts(Join([p] + users)) == [p] + users
  {
    PartsOfJoin([p] + users);
  }

  lemma KeepOne(p: string)
    ensures Keep([p]) == if IsKept(p) then [p] else []
  {
    assert [p][..0] == [];
  }

  lemma UsersAreClean(raw: string)
    ensures forall u <- UserPredicates(raw) :: Clean(u) && !IsControl(u)
    ensures Keep(UserPredicates(raw)) == UserPredicates(raw)
  {
    PartsAreWhole(raw);
    PartsAreClean(Split(raw));
    KeepIsIdempotent(Parts(raw));
  }

  /** Inserting a control predicate puts it first, before the user's predicates and without
      any other control predicate. */
  lemma InsertedParts(raw: string, p: string)
    requires IsControl(p)
    ensures Parts(Inserted(raw, p)) == [p] + UserPredicates(raw)
    ensures UserPredicates(Inserted(raw, p)) == UserPredicates(raw)
    ensures forall u <- UserPredicates(raw) :: !IsControl(u)
  {
    var users := UserPredicates(raw);
    UsersAreClean(raw);
    ControlIsClean(p);
    CleanJoin(p, users);
    KeepOfSum([p], users);
    KeepOne(p);
    assert Inserted(raw, p) == Join([p] + users);
  }

  /** Main result on one string: a later insertion makes up for an earlier one. */
  lemma LastInsertionCounts(raw: string, a: string, b: string)
    requires IsControl(a) && IsControl(b)
    ensures Inserted(Inserted(raw, a), b) == Inserted(raw, b)
  {
    InsertedParts(raw, a);
  }

  lemma CleanIsKept(p: string)
    requires IsKept(p) && Clean(p)
    ensures UserPredicates(p) == [p]
  {
    SplitOfWhole(p);
    TrimAllOfCons(p, []);
    KeepOne(p);
    assert Parts(p) == [p];
  }

  lemma KeptAreClean(raw: string)
    ensures forall u <- UserPredicates(raw) :: IsKept(u) && Clean(u)
  {
    UsersAreClean(raw);
    KeepIsIdempotent(Parts(raw));
  }

  /** A text stays as it is written exactly if it is a predicate of the user: not empty, no
      control predicate, trimmed, and without a separator inside. It is then all there is. */
  lemma KeptAsWrittenExactly(p: string)
    ensures p in UserPredicates(p) <==> IsKept(p) && Clean(p)
    ensures IsKept(p) && Clean(p) ==> UserPredicates(p) == [p]
  {
    KeptAreClean(p);
    if IsKept(p) && Clean(p) {
      CleanIsKept(p);
    }
  }

  /** A separator inside a quoted argument is taken for one between predicates. */
  lemma QuotedSeparatorIsSplit(p: string, q: string)
    requires Clean(p) && Clean(q) && IsKept(p) && IsKept(q) && p[|p| - 1] != '&'
    ensures UserPredicates(p + SEPARATOR + q) == [p, q]
    ensures Inserted(p + SEPARATOR + q, ENABLED) == Join([ENABLED, p, q])
  {
    PartsAtSeparator(p, q);
    SplitOfWhole(q);
    TrimAllOfCons(q, []);
    KeepOfSum([p], [q]);
    KeepOne(p);
    KeepOne(q);
    assert Parts(q) == [q];
  }

  // ---------------------------------------------------------------------------
  // The router
  // ---------------------------------------------------------------------------

  /** Of the annotations, those the router uses (weights in JSON, taken to be lossless). */
  datatype Annotations = Annotations(
    weights: Option<map<string, int>>,
    filter: Option<string>,
    others: map<string, string>)

  /** A missing annotation reads as the empty text. */
  function FilterOf(a: Annotations): string {
    if a.filter.Some? then a.filter.value else ""
  }

  function Control(canaryWeight: int): string {
    if canaryWeight == 0 then DISABLED else ENABLED
  }

  /** The canary ingress behind the API server; a call may be unable to read or to write. */
  class SkipperRouter {
    const apexName: string
    const primaryName: string
    const canaryName: string
    var ingress: Option<Annotations>
    var rules: Rules

    function WeightMap(p: int, c: int): map<string, int> {
      map[primaryName := p, canaryName := c]
    }

    method MakeAnnotations(a: Annotations, p: int, c: int) returns (made: Annotations)
      ensures made == a.(weights := Some(WeightMap(p, c)), filter := Some(Inserted(FilterOf(a), ENABLED)))
    {
      made := a.(weights := Some(WeightMap(p, c)));
      var inserted := InsertPredicate(FilterOf(made), ENABLED);
      made := made.(filter := Some(inserted));
    }

    /** The weights that annotations hold for the primary and the canary. */
    function PairIn(a: Option<Annotations>): Option<(int, int)> {
      if a.None? || a.value.weights.None? then None
      else
        var weights := a.value.weights.value;
        if primaryName in weights && canaryName in weights
        then Some((weights[primaryName], weights[canaryName])) else None
    }

    lemma PairOfMap(a: Annotations, p: int, c: int)
      requires primaryName != canaryName && a.weights == Some(WeightMap(p, c))
      ensures PairIn(Some(a)) == Some((p, c))
      ensures a.weights.value[primaryName] == p && a.weights.value[canaryName] == c
    {
    }

    function Read(): Option<(int, int)>
      reads this
    {
      PairIn(ingress)
    }

    /** The annotations of a new canary ingress. */
    function Initial(apex: Annotations): Annotations {
      apex.(weights := Some(WeightMap(100, 0)), filter := Some(Inserted(FilterOf(apex), ENABLED)))
    }

    /** Each path to the apex service leads to the primary, and gets a double that leads to the
        canary. The canary ingress is created from the apex ingress, or started afresh when its
        rules are not these. That no path leads to the apex service is not noticed. */
    method Reconcile(apex: Annotations, apexRules: Rules, readable: bool, writable: bool) returns (ok: bool)
      modifies this
      ensures var wanted := Doubled(apexRules, apexName, primaryName, canaryName);
              && (ok <==> readable && (writable || (old(ingress).Some? && old(rules) == wanted)))
              && (!ok ==> ingress == old(ingress) && rules == old(rules))
              && (ok ==> rules == wanted)
              && (ok ==> ingress ==
                           if old(ingress).None? then Some(Initial(apex))
                           else if old(rules) != wanted then
                             Some(Initial(apex).(others := Metadata.Filtered(apex.others)))
                           else old(ingress))
      ensures ok ==> IsDoubled(apexRules, rules, apexName, primaryName, canaryName)
      ensures ok && primaryName != canaryName ==>
                Read() == if old(ingress).None? || old(rules) != rules then Some((100, 0)) else old(Read())
    {
      if !readable {
        return false;
      }
      var doubled := DoubleBackends(apexRules, apexName, primaryName, canaryName);
      DoubledMeans(apexRules, apexName, primaryName, canaryName);
      var initial := MakeAnnotations(apex, 100, 0);
      if primaryName != canaryName {
        PairOfMap(initial, 100, 0);
        PairOfMap(initial.(others := Metadata.Filtered(initial.others)), 100, 0);
      }
      ok := Store(initial, doubled, writable);
    }

    /** Creates the canary ingress, or updates it if its rules differ. */
    method Store(initial: Annotations, wanted: Rules, writable: bool) returns (ok: bool)
      modifies this
      ensures ok <==> writable || (old(ingress).Some? && old(rules) == wanted)
      ensures !ok ==> ingress == old(ingress) && rules == old(rules)
      ensures ok ==>
                && rules == wanted
                && ingress == if old(ingress).None? then Some(initial)
                              else if old(rules) != wanted then
                                Some(initial.(others := Metadata.Filtered(initial.others)))
                              else old(ingress)
    {
      if ingress.Some? && rules == wanted {
        return true;
      }
      if !writable {
        return false;
      }
      if ingress.None? {
        ingress := Some(initial);
      } else {
        var others := Metadata.FilterMetadata(initial.others);
        ingress := Some(initial.(others := others));
      }
      rules := wanted;
      ok := true;
    }

    method SetRoutes(p: int, c: int, readable: bool, writable: bool) returns (ok: bool)
      modifies this`ingress
      ensures ok <==> readable && writable && old(ingress).Some?
      ensures !ok ==> ingress == old(ingress)
      ensures ok ==>
                var a := old(ingress).value;
                ingress == Some(a.(weights := Some(WeightMap(p, c)),
                                   filter := Some(Inserted(FilterOf(a), Control(c)))))
      ensures ok && primaryName != canaryName ==>
                && Read() == Some((p, c))
                && ingress.value.weights.value[primaryName] == p && ingress.value.weights.value[canaryName] == c
    {
      if !readable || ingress.None? {
        return false;
      }
      var a := ingress.value;
      var made := MakeAnnotations(a, p, c);
      if c == 0 {
        var inserted := InsertPredicate(FilterOf(made), DISABLED);
        LastInsertionCounts(FilterOf(a), ENABLED, DISABLED);
        made := made.(filter := Some(inserted));
      }
      if !writable {
        return false;
      }
      if primaryName != canaryName {
        PairOfMap(made, p, c);
      }
      ingress := Some(made);
      ok := true;
    }

    method GetRoutes(readable: bool) returns (routes: Option<(int, int)>)
      ensures routes == if readable then Read() else None
    {
      if !readable || ingress.None? || ingress.value.weights.None? {
        return None;
      }
      var weights := ingress.value.weights.value;
      if primaryName !in weights {
        return None;
      }
      var p := weights[primaryName];
      if canaryName !in weights {
        return None;
      }
      return Some((p, weights[canaryName]));
    }
  }

  // ---------------------------------------------------------------------------
  // Any sequence of weight changes
  // ---------------------------------------------------------------------------

  /** The predicate annotation after the given canary weights have been set. */
  function AfterWeights(raw: string, weights: seq<int>): string {
    if weights == [] then raw
    else Inserted(AfterWeights(raw, weights[..|weights| - 1]), Control(weights[|weights| - 1]))
  }

  /** Main result: after any weight changes there is exactly one control predicate, in front;
      it disables the route exactly if the last weight is zero; the user's predicates follow
      in their order. */
  lemma {:induction false} OneControlInFront(raw: string, weights: seq<int>)
    requires weights != []
    ensures var last := weights[|weights| - 1];
            && AfterWeights(raw, weights) == Inserted(raw, Control(last))
            && Parts(AfterWeights(raw, weights)) == [if last == 0 then "False()" else "Weight(100)"] + UserPredicates(raw)
    ensures forall u <- UserPredicates(raw) :: !IsControl(u)
  {
    var init, last := weights[..|weights| - 1], weights[|weights| - 1];
    InsertedParts(raw, Control(last));
    if init != [] {
      OneControlInFront(raw, init);
      LastInsertionCounts(raw, Control(init[|init| - 1]), Control(last));
    }
  }

  // ---------------------------------------------------------------------------
  // Any sequence of calls
  // ---------------------------------------------------------------------------

  /** A call of the router, and whether its reads and its writes succeed. */
  datatype Op =
    | Reconcile(apex: Annotations, readable: bool, writable: bool)
    | SetRoutes(primary: int, canary: int, readable: bool, writable: bool)

  /** The pair of the last weight change that came through. */
  function LastWritten(pair: Option<(int, int)>, ops: seq<Op>): Option<(int, int)> {
    if ops == [] then pair
    else
      var op := ops[|ops| - 1];
      if op.SetRoutes? && op.readable && op.writable then Some((op.primary, op.canary))
      else LastWritten(pair, ops[..|ops| - 1])
  }

  /** One call, once the canary ingress is there and has the rules of the apex ingress. */
  method Perform(r: SkipperRouter, apexRules: Rules, op: Op)
    requires r.primaryName != r.canaryName && r.ingress.Some?
    requires r.rules == Doubled(apexRules, r.apexName, r.primaryName, r.canaryName)
    modifies r
    ensures r.ingress.Some? && r.rules == old(r.rules)
    ensures r.Read() == if op.SetRoutes? && op.readable && op.writable then Some((op.primary, op.canary)) else old(r.Read())
  {
    if op.Reconcile? {
      var _ := r.Reconcile(op.apex, apexRules, op.readable, op.writable);
    } else {
      var _ := r.SetRoutes(op.primary, op.canary, op.readable, op.writable);
    }
  }

  /** Main result: over any sequence of reconciliations and weight changes, some of them failing,
      the weights read are those last written. */
  method Drive(r: SkipperRouter, apexRules: Rules, ops: seq<Op>)
    requires r.primaryName != r.canaryName && r.ingress.Some?
    requires r.rules == Doubled(apexRules, r.apexName, r.primaryName, r.canaryName)
    modifies r
    ensures r.ingress.Some? && r.rules == old(r.rules)
    ensures r.Read() == LastWritten(old(r.Read()), ops)
  {
    for i := 0 to |ops|
      invariant r.ingress.Some? && r.rules == old(r.rules)
      invariant r.Read() == LastWritten(old(r.Read()), ops[..i])
    {
      Perform(r, apexRules, ops[i]);
      assert ops[..i + 1][..i] == ops[..i];
    }
    assert ops[..|ops|] == ops;
  }
}
