// HTTP match conditions, which requests they select, and how the conditions of an A/B test
// are merged with those of the service (pkg/router/istio.go,
// pkg/apis/istio/v1alpha3/virtual_service.go).

module MatchConditions {
  import opened Options

  datatype StringMatch = Exact(text: string) | Prefix(text: string) | Suffix(text: string) | Regex(text: string)

  /** One match block. Unset maps and lists are empty; for headers and source labels being
      unset makes a difference. */
  datatype Condition = Condition(
    name: string,
    uri: Option<StringMatch>,
    scheme: Option<StringMatch>,
    verb: Option<StringMatch>,
    authority: Option<StringMatch>,
    headers: Option<map<string, StringMatch>>,
    port: nat,
    sourceLabels: Option<map<string, string>>,
    gateways: seq<string>,
    queryParams: map<string, StringMatch>,
    ignoreUriCase: bool,
    withoutHeaders: map<string, StringMatch>,
    sourceNamespace: string)

  const NO_CONDITION := Condition("", None, None, None, None, None, 0, None, [], map[], false, map[], "")

  datatype Request = Request(
    uri: string,
    scheme: string,
    verb: string,
    authority: string,
    headers: map<string, string>,
    port: nat,
    labels: map<string, string>,
    gateway: string,
    query: map<string, string>,
    namespace: string)

  /** What the mesh knows and this model does not: regular expressions and case folding. */
  datatype Mesh = Mesh(regex: (string, string) -> bool, fold: string -> string)

  predicate Fits(mesh: Mesh, m: StringMatch, s: string) {
    match m
    case Exact(t) => s == t
    case Prefix(t) => t <= s
    case Suffix(t) => |t| <= |s| && s[|s| - |t|..] == t
    case Regex(t) => mesh.regex(t, s)
  }

  predicate FitsIfSet(mesh: Mesh, m: Option<StringMatch>, s: string) {
    m.Some? ==> Fits(mesh, m.value, s)
  }

  predicate UriFits(mesh: Mesh, c: Condition, uri: string) {
    c.uri.Some? ==>
      if c.ignoreUriCase && !c.uri.value.Regex?
      then Fits(mesh, c.uri.value.(text := mesh.fold(c.uri.value.text)), mesh.fold(uri))
      else Fits(mesh, c.uri.value, uri)
  }

  predicate AllPresent(mesh: Mesh, wanted: map<string, StringMatch>, given: map<string, string>) {
    forall k <- wanted :: k in given && Fits(mesh, wanted[k], given[k])
  }

  predicate NonePresent(mesh: Mesh, unwanted: map<string, StringMatch>, given: map<string, string>) {
    forall k <- unwanted :: k !in given || !Fits(mesh, unwanted[k], given[k])
  }

  /** All parts of a condition have to hold. */
  predicate Satisfies(mesh: Mesh, q: Request, c: Condition) {
    && UriFits(mesh, c, q.uri)
    && FitsIfSet(mesh, c.scheme, q.scheme)
    && FitsIfSet(mesh, c.verb, q.verb)
    && FitsIfSet(mesh, c.authority, q.authority)
    && (c.headers.Some? ==> AllPresent(mesh, c.headers.value, q.headers))
    && (c.port != 0 ==> q.port == c.port)
    && (c.sourceLabels.Some? ==> forall k <- c.sourceLabels.value :: k in q.labels && q.labels[k] == c.sourceLabels.value[k])
    && (c.gateways != [] ==> q.gateway in c.gateways)
    && AllPresent(mesh, c.queryParams, q.query)
    && NonePresent(mesh, c.withoutHeaders, q.headers)
    && (c.sourceNamespace != "" ==> q.namespace == c.sourceNamespace)
  }

  /** A rule takes a request that satisfies one of its conditions; without conditions it
      takes every request. */
  predicate Takes(mesh: Mesh, q: Request, cs: seq<Condition>) {
    cs == [] || exists c <- cs :: Satisfies(mesh, q, c)
  }

  // ---------------------------------------------------------------------------
  // Merging
  // ---------------------------------------------------------------------------

  function Merge(c: Condition, d: Condition): Condition {
    d.(headers := if c.headers.Some? then c.headers else d.headers,
       sourceLabels := if c.sourceLabels.Some? then c.sourceLabels else d.sourceLabels)
  }

  function Row(c: Condition, ds: seq<Condition>): seq<Condition> {
    seq(|ds|, j requires 0 <= j < |ds| => Merge(c, ds[j]))
  }

  function Table(cs: seq<Condition>, ds: seq<Condition>): seq<Condition> {
    if cs == [] then [] else Table(cs[..|cs| - 1], ds) + Row(cs[|cs| - 1], ds)
  }

  function Merged(cs: seq<Condition>, ds: seq<Condition>): seq<Condition> {
    if ds == [] then cs else Table(cs, ds)
  }

  method MergeMatchConditions(canary: seq<Condition>, defaults: seq<Condition>) returns (merged: seq<Condition>)
    ensures merged == Merged(canary, defaults)
  {
    if |defaults| == 0 {
      return canary;
    }
    TableSize(canary, defaults);
    var table := new Condition[|canary| * |defaults|](_ => NO_CONDITION);
    var num := 0;
    for i := 0 to |canary|
      invariant num == |Table(canary[..i], defaults)|
      invariant num <= table.Length
      invariant table[..num] == Table(canary[..i], defaults)
    {
      var c := canary[i];
      ghost var done := Table(canary[..i], defaults);
      assert canary[..i + 1][..i] == canary[..i];
      TablePrefix(canary, defaults, i + 1);
      for j := 0 to |defaults|
        invariant num == |done| + j
        invariant |done| + |defaults| <= table.Length
        invariant table[..num] == done + Row(c, defaults)[..j]
      {
        var entry := defaults[j];
        if c.headers.Some? {
          entry := entry.(headers := c.headers);
        }
        if c.sourceLabels.Some? {
          entry := entry.(sourceLabels := c.sourceLabels);
        }
        table[num] := entry;
        num := num + 1;
        assert table[..num] == table[..num - 1] + [entry];
      }
    }
    assert canary[..|canary|] == canary;
    merged := table[..];
  }

  /** The entry for a pair stands at the product position. */
  lemma {:induction false} TableSize(cs: seq<Condition>, ds: seq<Condition>)
    ensures |Table(cs, ds)| == |cs| * |ds|
  {
    if cs != [] {
      TableSize(cs[..|cs| - 1], ds);
      assert |cs| * |ds| == (|cs| - 1) * |ds| + |ds|;
    }
  }

  lemma {:induction false} TablePrefix(cs: seq<Condition>, ds: seq<Condition>, i: nat)
    requires i <= |cs|
    ensures |Table(cs[..i], ds)| <= |Table(cs, ds)| == |cs| * |ds|
    ensures Table(cs[..i], ds) <= Table(cs, ds)
  {
    TableSize(cs, ds);
    if i < |cs| {
      TablePrefix(cs[..|cs| - 1], ds, i);
      assert cs[..|cs| - 1][..i] == cs[..i];
    } else {
      assert cs[..i] == cs;
    }
  }

  /** Main result on the shape: entry i * |defaults| + j comes from the pair (i, j). */
  lemma {:induction false} EntryOfPair(cs: seq<Condition>, ds: seq<Condition>, i: nat, j: nat)
    requires i < |cs| && j < |ds|
    ensures i * |ds| + j < |Table(cs, ds)|
    ensures Table(cs, ds)[i * |ds| + j] == Merge(cs[i], ds[j])
  {
    var init := cs[..|cs| - 1];
    TableSize(init, ds);
    if i < |cs| - 1 {
      EntryOfPair(init, ds, i, j);
    }
  }

  lemma {:induction false} PairIsEntry(cs: seq<Condition>, ds: seq<Condition>, i: nat, j: nat)
    requires i < |cs| && j < |ds|
    ensures Merge(cs[i], ds[j]) in Table(cs, ds)
  {
    if i < |cs| - 1 {
      PairIsEntry(cs[..|cs| - 1], ds, i, j);
    } else {
      assert Row(cs[i], ds)[j] in Row(cs[i], ds);
    }
  }

  lemma {:induction false} PairOfEntry(cs: seq<Condition>, ds: seq<Condition>, e: Condition)
    requires e in Table(cs, ds)
    ensures exists i: nat, j: nat :: i < |cs| && j < |ds| && e == Merge(cs[i], ds[j])
  {
    var init, c := cs[..|cs| - 1], cs[|cs| - 1];
    if e in Table(init, ds) {
      PairOfEntry(init, ds, e);
    } else {
      var j :| 0 <= j < |ds| && Row(c, ds)[j] == e;
      assert e == Merge(cs[|cs| - 1], ds[j]);
    }
  }

  // ---------------------------------------------------------------------------
  // Meaning
  // ---------------------------------------------------------------------------

  /** The part of a condition that survives merging. */
  function HeadersAndLabels(c: Condition): Condition {
    NO_CONDITION.(headers := c.headers, sourceLabels := c.sourceLabels)
  }

  /** Neither headers nor source labels are set on both sides. */
  predicate NoOverride(c: Condition, d: Condition) {
    !(c.headers.Some? && d.headers.Some?) && !(c.sourceLabels.Some? && d.sourceLabels.Some?)
  }

  predicate NoOverrides(cs: seq<Condition>, ds: seq<Condition>) {
    forall c <- cs, d <- ds :: NoOverride(c, d)
  }

  /** The part of a default condition that a canary condition does not override. */
  function NotOverridden(c: Condition, d: Condition): Condition {
    d.(headers := if c.headers.Some? then None else d.headers,
       sourceLabels := if c.sourceLabels.Some? then None else d.sourceLabels)
  }

  /** What a merged condition asks for, whatever the two conditions set: headers and source
      labels of the first one, and of the second one what the first does not override. */
  lemma MergeMeans(mesh: Mesh, q: Request, c: Condition, d: Condition)
    ensures Satisfies(mesh, q, Merge(c, d)) <==>
            Satisfies(mesh, q, HeadersAndLabels(c)) && Satisfies(mesh, q, NotOverridden(c, d))
    ensures NotOverridden(c, d) == d <==> NoOverride(c, d)
  {
  }

  /** The canary conditions as they take part in the merge. */
  function Reduced(cs: seq<Condition>, ds: seq<Condition>): seq<Condition> {
    if ds == [] then cs else seq(|cs|, i requires 0 <= i < |cs| => HeadersAndLabels(cs[i]))
  }

  lemma MergedMeansNoLess(mesh: Mesh, q: Request, cs: seq<Condition>, ds: seq<Condition>)
    requires cs != [] && ds != [] && NoOverrides(cs, ds) && Takes(mesh, q, Merged(cs, ds))
    ensures Takes(mesh, q, Reduced(cs, ds)) && Takes(mesh, q, ds)
  {
    PairIsEntry(cs, ds, 0, 0);
    var e :| e in Table(cs, ds) && Satisfies(mesh, q, e);
    PairOfEntry(cs, ds, e);
    var i: nat, j: nat :| i < |cs| && j < |ds| && e == Merge(cs[i], ds[j]);
    assert cs[i] in cs && ds[j] in ds;
    MergeMeans(mesh, q, cs[i], ds[j]);
    assert Reduced(cs, ds)[i] in Reduced(cs, ds);
  }

  lemma MergedMeansNoMore(mesh: Mesh, q: Request, cs: seq<Condition>, ds: seq<Condition>)
    requires cs != [] && ds != [] && NoOverrides(cs, ds)
    requires Takes(mesh, q, Reduced(cs, ds)) && Takes(mesh, q, ds)
    ensures Takes(mesh, q, Merged(cs, ds))
  {
    var c :| c in Reduced(cs, ds) && Satisfies(mesh, q, c);
    var i: nat :| i < |cs| && c == HeadersAndLabels(cs[i]);
    var j: nat :| j < |ds| && Satisfies(mesh, q, ds[j]);
    assert cs[i] in cs && ds[j] in ds;
    MergeMeans(mesh, q, cs[i], ds[j]);
    PairIsEntry(cs, ds, i, j);
  }

  /** Main result: the merged list takes a request exactly if some canary condition and some
      default condition take it. Canary conditions count in full if they set nothing but
      headers and source labels, or if the service has no conditions. */
  lemma MergedMeansBoth(mesh: Mesh, q: Request, cs: seq<Condition>, ds: seq<Condition>)
    requires cs != [] && NoOverrides(cs, ds)
    ensures Takes(mesh, q, Merged(cs, ds)) <==> Takes(mesh, q, Reduced(cs, ds)) && Takes(mesh, q, ds)
    ensures (forall c <- cs :: c == HeadersAndLabels(c)) || ds == [] ==> Reduced(cs, ds) == cs
  {
    if ds != [] {
      if Takes(mesh, q, Merged(cs, ds)) {
        MergedMeansNoLess(mesh, q, cs, ds);
      }
      if Takes(mesh, q, Reduced(cs, ds)) && Takes(mesh, q, ds) {
        MergedMeansNoMore(mesh, q, cs, ds);
      }
    }
  }

  /** What an A/B test selects, whatever the conditions set: of the canary conditions only headers
      and source labels count if the service has conditions of its own, and these count as far as
      they are not overridden. */
  ghost predicate Selects(mesh: Mesh, q: Request, cs: seq<Condition>, ds: seq<Condition>) {
    if ds == [] then exists c <- cs :: Satisfies(mesh, q, c)
    else
      exists c, d | c in cs && d in ds ::
        Satisfies(mesh, q, HeadersAndLabels(c)) && Satisfies(mesh, q, NotOverridden(c, d))
  }

  lemma MergedSelects(mesh: Mesh, q: Request, cs: seq<Condition>, ds: seq<Condition>)
    requires cs != []
    ensures Takes(mesh, q, Merged(cs, ds)) <==> Selects(mesh, q, cs, ds)
  {
    if ds != [] {
      PairIsEntry(cs, ds, 0, 0);
      if Takes(mesh, q, Merged(cs, ds)) {
        var e :| e in Table(cs, ds) && Satisfies(mesh, q, e);
        PairOfEntry(cs, ds, e);
        var i: nat, j: nat :| i < |cs| && j < |ds| && e == Merge(cs[i], ds[j]);
        MergeMeans(mesh, q, cs[i], ds[j]);
        assert cs[i] in cs && ds[j] in ds;
      }
      if Selects(mesh, q, cs, ds) {
        var c, d :| c in cs && d in ds && Satisfies(mesh, q, HeadersAndLabels(c)) && Satisfies(mesh, q, NotOverridden(c, d));
        var i: nat :| i < |cs| && cs[i] == c;
        var j: nat :| j < |ds| && ds[j] == d;
        MergeMeans(mesh, q, c, d);
        PairIsEntry(cs, ds, i, j);
      }
    }
  }

  /** Without overrides it selects what some canary condition, in its reduced form, and some
      condition of the service take. */
  lemma SelectsBoth(mesh: Mesh, q: Request, cs: seq<Condition>, ds: seq<Condition>)
    requires cs != [] && NoOverrides(cs, ds)
    ensures Selects(mesh, q, cs, ds) <==> Takes(mesh, q, Reduced(cs, ds)) && Takes(mesh, q, ds)
  {
    MergedSelects(mesh, q, cs, ds);
    MergedMeansBoth(mesh, q, cs, ds);
  }

  /** The two rules of an A/B test together take the requests the service takes: none is lost
      and none is added. */
  lemma TwoRulesTakeTheDefaults(mesh: Mesh, q: Request, cs: seq<Condition>, ds: seq<Condition>)
    requires cs != [] && NoOverrides(cs, ds)
    ensures Takes(mesh, q, Merged(cs, ds)) || Takes(mesh, q, ds) <==> Takes(mesh, q, ds)
  {
    if ds != [] && Takes(mesh, q, Merged(cs, ds)) {
      MergedMeansNoLess(mesh, q, cs, ds);
    }
  }

  /** A URI of a canary condition is dropped as soon as the service has conditions of its own. */
  lemma CanaryUriIsDropped(mesh: Mesh)
    ensures var c := NO_CONDITION.(uri := Some(Prefix("/beta")));
            var d := NO_CONDITION.(uri := Some(Prefix("/")));
            var q := Request("/home", "", "", "", map[], 0, map[], "", map[], "");
            && Takes(mesh, q, Merged([c], [d])) && !Takes(mesh, q, [c])
            && !Takes(mesh, q, Merged([c], []))
  {
    var c := NO_CONDITION.(uri := Some(Prefix("/beta")));
    var d := NO_CONDITION.(uri := Some(Prefix("/")));
    PairIsEntry([c], [d], 0, 0);
    assert "/beta"[1] != "/home"[1];
  }

  /** Headers of a canary condition replace the headers the service asks for, so that the
      canary gets requests the service would not take. */
  lemma DefaultHeadersAreOverridden(mesh: Mesh)
    ensures var c := NO_CONDITION.(headers := Some(map["x-canary" := Exact("yes")]));
            var d := NO_CONDITION.(headers := Some(map["x-tenant" := Exact("a")]));
            var q := Request("/", "", "", "", map["x-canary" := "yes"], 0, map[], "", map[], "");
            Takes(mesh, q, Merged([c], [d])) && !Takes(mesh, q, [d])
  {
    var c := NO_CONDITION.(headers := Some(map["x-canary" := Exact("yes")]));
    var d := NO_CONDITION.(headers := Some(map["x-tenant" := Exact("a")]));
    PairIsEntry([c], [d], 0, 0);
    assert "x-tenant" in d.headers.value;
    assert "x-canary"[2] != "x-tenant"[2];
  }
}
