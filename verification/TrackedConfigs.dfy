// The ConfigMaps and Secrets a target depends on: finding them, noticing when they change,
// and copying them for the primary (pkg/canary/config_tracker.go).

module TrackedConfigs {
  import opened Options
  import CanaryStatus
  import ConfigTracker
  import opened PodSpecs
  import opened ConfigCopies

  datatype ConfigRef = ConfigRef(ref: Ref, checksum: string)

  predicate IsDisabled(o: Object) {
    "disable" <= o.tracking
  }

  /** Objects that are looked at but not tracked: registry secrets and the like, and
      whatever is annotated so. */
  predicate IsTracked(r: Ref, o: Object) {
    (r.kind.Secret? ==> !o.secretType.OtherType?) && !IsDisabled(o)
  }

  // ---------------------------------------------------------------------------
  // Which names are mentioned, and whether their objects have to exist
  // ---------------------------------------------------------------------------

  predicate IsMandatory(r: Reference) {
    r.optional == Some(false)
  }

  /** The source keeps one map for each kind; here the kind is part of the key. */
  type Names = map<Ref, bool>

  /** The names mentioned; the last mention of a name decides. */
  function Noted(names: Names, ms: seq<Mention>): Names {
    if ms == [] then names
    else Noted(names, ms[..|ms| - 1])[RefOf(ms[|ms| - 1]) := IsMandatory(ms[|ms| - 1].reference)]
  }

  lemma {:induction false} NotedOfSum(names: Names, a: seq<Mention>, b: seq<Mention>)
    ensures Noted(names, a + b) == Noted(Noted(names, a), b)
  {
    if b == [] {
      assert a + b == a;
    } else {
      var n := |b| - 1;
      assert (a + b)[..|a| + n] == a + b[..n];
      NotedOfSum(names, a, b[..n]);
    }
  }

  /** Exactly the mentioned names are noted, each as its last mention has it. */
  lemma {:induction false} LastMentionDecides(ms: seq<Mention>, r: Ref)
    ensures r in Noted(map[], ms) <==> exists m <- ms :: RefOf(m) == r
    ensures forall i | 0 <= i < |ms| && RefOf(ms[i]) == r && (forall j | i < j < |ms| :: RefOf(ms[j]) != r) ::
              r in Noted(map[], ms) && Noted(map[], ms)[r] == IsMandatory(ms[i].reference)
  {
    if ms != [] {
      var init := ms[..|ms| - 1];
      LastMentionDecides(init, r);
      assert ms == init + [ms[|ms| - 1]];
      forall i | 0 <= i < |init| && RefOf(ms[i]) == r && (forall j | i < j < |ms| :: RefOf(ms[j]) != r)
        ensures Noted(map[], init)[r] == IsMandatory(ms[i].reference)
      {
        assert init[i] == ms[i];
        assert forall j | i < j < |init| :: init[j] == ms[j];
        assert ms[|ms| - 1] == ms[|ms| - 1];
      }
    }
  }

  method NoteEvery(names: Names, s: Source) returns (noted: Names)
    ensures noted == Noted(names, Every(s))
  {
    noted := names;
    if s.configMap.Some? {
      noted := noted[Ref(ConfigMap, s.configMap.value.name) := IsMandatory(s.configMap.value)];
    }
    NotedOfSum(names, if s.configMap.Some? then [Mention(ConfigMap, s.configMap.value)] else [],
               if s.secret.Some? then [Mention(Secret, s.secret.value)] else []);
    if s.secret.Some? {
      noted := noted[Ref(Secret, s.secret.value.name) := IsMandatory(s.secret.value)];
    }
  }

  method NoteFirst(names: Names, s: Source) returns (noted: Names)
    ensures noted == Noted(names, First(s))
  {
    noted := names;
    if s.configMap.Some? {
      noted := noted[Ref(ConfigMap, s.configMap.value.name) := IsMandatory(s.configMap.value)];
    } else if s.secret.Some? {
      noted := noted[Ref(Secret, s.secret.value.name) := IsMandatory(s.secret.value)];
    }
  }

  /** One list of environment entries. */
  method NoteEntries(names: Names, entries: seq<Source>) returns (noted: Names)
    ensures noted == Noted(names, Collect(First, entries))
  {
    noted := names;
    for i := 0 to |entries|
      invariant noted == Noted(names, Collect(First, entries[..i]))
    {
      noted := NoteFirst(noted, entries[i]);
      assert entries[..i + 1][..i] == entries[..i];
      NotedOfSum(names, Collect(First, entries[..i]), First(entries[i]));
    }
    assert entries[..|entries|] == entries;
  }

  method NoteVolume(names: Names, v: Volume) returns (noted: Names)
    ensures noted == Noted(names, InVolume(v))
  {
    noted := NoteEvery(names, v.own);
    ghost var own := noted;
    for s := 0 to |v.projected|
      invariant noted == Noted(own, Collect(Every, v.projected[..s]))
    {
      noted := NoteEvery(noted, v.projected[s]);
      assert v.projected[..s + 1][..s] == v.projected[..s];
      NotedOfSum(own, Collect(Every, v.projected[..s]), Every(v.projected[s]));
    }
    assert v.projected[..|v.projected|] == v.projected;
    NotedOfSum(names, Every(v.own), Collect(Every, v.projected));
  }

  method NoteVolumes(names: Names, volumes: seq<Volume>) returns (noted: Names)
    ensures noted == Noted(names, Collect(InVolume, volumes))
  {
    noted := names;
    for i := 0 to |volumes|
      invariant noted == Noted(names, Collect(InVolume, volumes[..i]))
    {
      noted := NoteVolume(noted, volumes[i]);
      assert volumes[..i + 1][..i] == volumes[..i];
      NotedOfSum(names, Collect(InVolume, volumes[..i]), InVolume(volumes[i]));
    }
    assert volumes[..|volumes|] == volumes;
  }

  method NoteContainers(names: Names, containers: seq<Container>) returns (noted: Names)
    ensures noted == Noted(names, Collect(InContainer, containers))
  {
    noted := names;
    for i := 0 to |containers|
      invariant noted == Noted(names, Collect(InContainer, containers[..i]))
    {
      var c := containers[i];
      ghost var before := noted;
      noted := NoteEntries(noted, c.env);
      noted := NoteEntries(noted, c.envFrom);
      NotedOfSum(before, Collect(First, c.env), Collect(First, c.envFrom));
      assert containers[..i + 1][..i] == containers[..i];
      NotedOfSum(names, Collect(InContainer, containers[..i]), InContainer(c));
    }
    assert containers[..|containers|] == containers;
  }

  // ---------------------------------------------------------------------------
  // The configs of a target
  // ---------------------------------------------------------------------------

  /** A mandatory object that cannot be read makes the whole query fail. */
  predicate QueryFails(objects: Objects, names: Names) {
    exists r <- names :: names[r] && r !in objects
  }

  function Tracked(objects: Objects, names: Names): (rs: set<Ref>)
    ensures forall r :: r in rs <==> r in names && r in objects && IsTracked(r, objects[r])
  {
    set r <- names | r in objects && IsTracked(r, objects[r])
  }

  function Keyed<T>(m: map<Ref, T>): (keyed: map<string, T>)
    ensures forall r :: Key(r) in keyed <==> r in m
    ensures forall r <- m :: keyed[Key(r)] == m[r]
    ensures forall k <- keyed :: k == Key(RefOfKey(k))
  {
    forall r: Ref ensures RefOfKey(Key(r)) == r {
      KeyIsInjective(r);
    }
    map k | k in (set r <- m :: Key(r)) :: m[RefOfKey(k)]
  }

  lemma KeyedIsInjective<T>(m: map<Ref, T>, n: map<Ref, T>)
    ensures Keyed(m) == Keyed(n) <==> m == n
  {
    if Keyed(m) == Keyed(n) {
      assert forall r :: r in m <==> Key(r) in Keyed(n);
      assert forall r <- m :: m[r] == Keyed(n)[Key(r)];
    }
  }

  /** What a revision depends on: the data behind each tracked name. */
  function Dependencies(objects: Objects, names: Names): map<Ref, Data> {
    map r <- Tracked(objects, names) :: objects[r].data
  }

  function Hashed(deps: map<Ref, Data>, hash: Data -> string): map<Ref, string> {
    map r <- deps :: hash(deps[r])
  }

  function TargetConfigs(objects: Objects, names: Names, hash: Data -> string): map<string, ConfigRef> {
    Keyed(map r <- Tracked(objects, names) :: ConfigRef(r, hash(objects[r].data)))
  }

  /** The checksums recorded in the status. */
  function Checksums(objects: Objects, names: Names, hash: Data -> string): CanaryStatus.Checksums {
    Keyed(Hashed(Dependencies(objects, names), hash))
  }

  /** No checksum is empty, and different data have different checksums. */
  ghost predicate IsDigest(hash: Data -> string) {
    (forall d :: hash(d) != "") && forall d, e :: hash(d) == hash(e) ==> d == e
  }

  lemma HashedIsInjective(d: map<Ref, Data>, e: map<Ref, Data>, hash: Data -> string)
    requires IsDigest(hash)
    ensures Hashed(d, hash) == Hashed(e, hash) <==> d == e
  {
    if Hashed(d, hash) == Hashed(e, hash) {
      assert d.Keys == Hashed(d, hash).Keys == e.Keys;
      assert forall r <- d :: Hashed(d, hash)[r] == hash(d[r]) == hash(e[r]);
    }
  }

  /** Against a snapshot, a change is reported exactly if the data of a tracked object
      differs, or an object has started or ceased to be tracked. */
  lemma ChangedExactly(before: Objects, now: Objects, names: Names, names': Names, hash: Data -> string)
    requires IsDigest(hash)
    ensures ConfigTracker.HasConfigChanged(Some(Checksums(before, names, hash)), Checksums(now, names', hash)) <==>
            Dependencies(before, names) != Dependencies(now, names')
  {
    var d, e := Dependencies(before, names), Dependencies(now, names');
    KeyedIsInjective(Hashed(d, hash), Hashed(e, hash));
    HashedIsInjective(d, e, hash);
  }

  // ---------------------------------------------------------------------------
  // What a template depends on, told from the objects
  // ---------------------------------------------------------------------------

  /** A mention makes the revision depend on its object if that is there, is not annotated to the
      contrary, and, for a Secret, is of one of the types an application reads. */
  predicate IsDependency(objects: Objects, m: Mention) {
    var r := Ref(m.kind, m.reference.name);
    && r in objects && !("disable" <= objects[r].tracking)
    && (m.kind.Secret? ==> objects[r].secretType in {OpaqueType, BasicAuth, SSHAuth, TLS})
  }

  /** The key of a mentioned object. */
  predicate IsKeyOf(k: string, m: Mention) {
    k == (if m.kind.ConfigMap? then "configmap/" else "secret/") + m.reference.name
  }

  lemma NotedMentions(ms: seq<Mention>)
    ensures forall r :: r in Noted(map[], ms) <==> exists m <- ms :: RefOf(m) == r
  {
    forall r
      ensures r in Noted(map[], ms) <==> exists m <- ms :: RefOf(m) == r
    {
      LastMentionDecides(ms, r);
    }
  }

  /** Some mention of the object makes it a dependency. */
  predicate DependencyOf(objects: Objects, ms: seq<Mention>, r: Ref) {
    exists m <- ms :: RefOf(m) == r && IsDependency(objects, m)
  }

  lemma DependsOn(objects: Objects, ms: seq<Mention>, r: Ref)
    ensures r in Dependencies(objects, Noted(map[], ms)) <==> DependencyOf(objects, ms, r)
    ensures r in Dependencies(objects, Noted(map[], ms)) ==>
              r in objects && Dependencies(objects, Noted(map[], ms))[r] == objects[r].data
  {
    NotedMentions(ms);
    assert forall t: SecretType :: t in {OpaqueType, BasicAuth, SSHAuth, TLS} <==> !t.OtherType?;
  }

  /** Exactly the dependencies are found, each under its key, with the checksum of its data. */
  lemma TrackedExactly(objects: Objects, ms: seq<Mention>, hash: Data -> string, k: string)
    ensures var configs := TargetConfigs(objects, Noted(map[], ms), hash);
            && (k in configs <==> exists m <- ms :: IsDependency(objects, m) && IsKeyOf(k, m))
            && (forall m <- ms | IsDependency(objects, m) && IsKeyOf(k, m) ::
                  k in configs && configs[k].checksum == hash(objects[Ref(m.kind, m.reference.name)].data))
  {
    var names := Noted(map[], ms);
    var all := map r <- Tracked(objects, names) :: ConfigRef(r, hash(objects[r].data));
    var configs := TargetConfigs(objects, names, hash);
    assert configs == Keyed(all);
    forall m <- ms | IsDependency(objects, m) && IsKeyOf(k, m)
      ensures k in configs && configs[k].checksum == hash(objects[Ref(m.kind, m.reference.name)].data)
    {
      DependsOn(objects, ms, RefOf(m));
      assert Key(RefOf(m)) == k && RefOf(m) in all;
    }
    if k in configs {
      var r := RefOfKey(k);
      assert k == Key(r) && r in all;
      DependsOn(objects, ms, r);
    }
  }

  lemma {:induction false} LastMention(ms: seq<Mention>, r: Ref) returns (i: nat)
    requires exists m <- ms :: RefOf(m) == r
    ensures i < |ms| && RefOf(ms[i]) == r && forall j | i < j < |ms| :: RefOf(ms[j]) != r
  {
    var n := |ms| - 1;
    if RefOf(ms[n]) == r {
      i := n;
    } else {
      assert ms == ms[..n] + [ms[n]];
      i := LastMention(ms[..n], r);
      assert forall j | i < j < n :: ms[..n][j] == ms[j];
    }
  }

  /** The i-th mention is the last one of its object, makes it mandatory, and it is missing. */
  predicate IsMissing(objects: Objects, ms: seq<Mention>, i: nat)
    requires i < |ms|
  {
    && ms[i].reference.optional == Some(false) && Ref(ms[i].kind, ms[i].reference.name) !in objects
    && forall j | i < j < |ms| :: RefOf(ms[j]) != RefOf(ms[i])
  }

  lemma MissingFails(objects: Objects, ms: seq<Mention>, i: nat)
    requires i < |ms| && IsMissing(objects, ms, i)
    ensures QueryFails(objects, Noted(map[], ms))
  {
    LastMentionDecides(ms, RefOf(ms[i]));
  }

  /** The query fails exactly if a mandatory object is missing. */
  lemma FailsExactly(objects: Objects, ms: seq<Mention>)
    ensures QueryFails(objects, Noted(map[], ms)) <==> exists i: nat | i < |ms| :: IsMissing(objects, ms, i)
  {
    var names := Noted(map[], ms);
    if QueryFails(objects, names) {
      var r :| r in names && names[r] && r !in objects;
      LastMentionDecides(ms, r);
      var i := LastMention(ms, r);
      assert IsMissing(objects, ms, i);
    }
    if i: nat :| i < |ms| && IsMissing(objects, ms, i) {
      MissingFails(objects, ms, i);
    }
  }

  /** Two states of the objects, seen from two templates, differ in a dependency: it is one in one
      of them only, or has other data. */
  ghost predicate DependencyChanged(before: Objects, ms: seq<Mention>, now: Objects, ms': seq<Mention>, r: Ref) {
    || DependencyOf(before, ms, r) != DependencyOf(now, ms', r)
    || (DependencyOf(before, ms, r) && DependencyOf(now, ms', r) && before[r].data != now[r].data)
  }

  predicate DiffersAt<T(==)>(d: map<Ref, T>, e: map<Ref, T>, r: Ref) {
    (r in d) != (r in e) || (r in d && r in e && d[r] != e[r])
  }

  lemma MapsDiffer<T>(d: map<Ref, T>, e: map<Ref, T>)
    ensures d != e <==> exists r :: DiffersAt(d, e, r)
  {
    if d != e {
      if d.Keys == e.Keys {
        var r :| r in d && d[r] != e[r];
        assert DiffersAt(d, e, r);
      } else {
        var r :| r in d.Keys + e.Keys && (r in d) != (r in e);
        assert DiffersAt(d, e, r);
      }
    }
  }

  lemma DependencyDiffers(before: Objects, ms: seq<Mention>, now: Objects, ms': seq<Mention>, r: Ref)
    ensures DependencyChanged(before, ms, now, ms', r) <==>
            DiffersAt(Dependencies(before, Noted(map[], ms)), Dependencies(now, Noted(map[], ms')), r)
  {
    DependsOn(before, ms, r);
    DependsOn(now, ms', r);
  }

  /** Main result: against a snapshot a change is noticed exactly if some dependency has changed;
      edits of objects that are none, before and after, are not. */
  lemma ChangeIsNoticedExactly(before: Objects, ms: seq<Mention>, now: Objects, ms': seq<Mention>, hash: Data -> string)
    requires IsDigest(hash)
    ensures ConfigTracker.HasConfigChanged(
              Some(Checksums(before, Noted(map[], ms), hash)), Checksums(now, Noted(map[], ms'), hash)) <==>
            exists r :: DependencyChanged(before, ms, now, ms', r)
  {
    var d, e := Dependencies(before, Noted(map[], ms)), Dependencies(now, Noted(map[], ms'));
    ChangedExactly(before, now, Noted(map[], ms), Noted(map[], ms'), hash);
    MapsDiffer(d, e);
    forall r: Ref
      ensures DependencyChanged(before, ms, now, ms', r) <==> DiffersAt(d, e, r)
    {
      DependencyDiffers(before, ms, now, ms', r);
    }
  }

  /** Without a snapshot a change is noticed exactly if there is a dependency at all. */
  lemma FirstSnapshotExactly(now: Objects, ms: seq<Mention>, hash: Data -> string)
    ensures ConfigTracker.HasConfigChanged(None, Checksums(now, Noted(map[], ms), hash)) <==>
            exists m <- ms :: IsDependency(now, m)
  {
    var deps := Dependencies(now, Noted(map[], ms));
    var sums := Checksums(now, Noted(map[], ms), hash);
    if sums != map[] {
      var k :| k in sums;
      assert RefOfKey(k) in Hashed(deps, hash);
      DependsOn(now, ms, RefOfKey(k));
    }
    forall m <- ms | IsDependency(now, m) ensures sums != map[] {
      DependsOn(now, ms, RefOf(m));
      assert Key(RefOf(m)) in sums;
    }
  }

  /** Maps of the same size of which one agrees with the other on its own keys are equal. */
  lemma SameSizeAgreement<T>(m: map<string, T>, n: map<string, T>)
    requires |m| == |n| && forall k <- m :: k in n && n[k] == m[k]
    ensures m == n
  {
    assert m.Keys <= n.Keys;
    SubsetOfSameSize(m.Keys, n.Keys);
  }

  lemma SubsetOfSameSize<T>(a: set<T>, b: set<T>)
    requires a <= b && |a| == |b|
    ensures a == b
  {
    assert b == a + (b - a) && |b| == |a| + |b - a|;
  }

  // ---------------------------------------------------------------------------
  // The object store
  // ---------------------------------------------------------------------------

  method Snapshot(configs: map<string, ConfigRef>) returns (sums: CanaryStatus.Checksums)
    ensures sums.Keys == configs.Keys
    ensures forall k <- configs :: sums[k] == configs[k].checksum
  {
    var todo := configs.Keys;
    sums := map[];
    while todo != {}
      invariant todo <= configs.Keys && sums.Keys == configs.Keys - todo
      invariant forall k <- sums :: sums[k] == configs[k].checksum
      decreases |todo|
    {
      var k :| k in todo;
      todo := todo - {k};
      sums := sums[k := configs[k].checksum];
    }
  }

  /** Go through the current configs and look each one up; a missing entry reads as the
      empty checksum. */
  method LookUp(configs: map<string, ConfigRef>, recorded: CanaryStatus.Checksums) returns (changed: bool)
    requires forall k <- configs :: configs[k].checksum != ""
    ensures !changed <==> forall k <- configs :: k in recorded && recorded[k] == configs[k].checksum
  {
    var todo := configs.Keys;
    while todo != {}
      invariant todo <= configs.Keys
      invariant forall k <- configs.Keys - todo :: k in recorded && recorded[k] == configs[k].checksum
      decreases |todo|
    {
      var k :| k in todo;
      todo := todo - {k};
      if (if k in recorded then recorded[k] else "") != configs[k].checksum {
        return true;
      }
    }
    return false;
  }

  /** Compares sizes first, and then entry by entry. */
  method Compare(
    configs: map<string, ConfigRef>, tracked: Option<CanaryStatus.Checksums>, ghost sums: CanaryStatus.Checksums)
    returns (changed: bool)
    requires configs.Keys == sums.Keys && |configs| == |sums|
    requires forall k <- configs :: configs[k].checksum == sums[k] != ""
    ensures changed == ConfigTracker.HasConfigChanged(tracked, sums)
  {
    if |configs| == 0 && tracked.None? {
      return false;
    }
    if |configs| > 0 && tracked.None? {
      return true;
    }
    if |configs| != |tracked.value| {
      return true;
    }
    changed := LookUp(configs, tracked.value);
    if !changed {
      SameSizeAgreement(sums, tracked.value);
    }
  }

  /** Each config under its own key, and in the store. */
  predicate AreTargets(refs: map<string, ConfigRef>, objects: Objects) {
    forall k <- refs :: Key(refs[k].ref) == k && refs[k].ref in objects
  }

  /** The configs under the given keys, in some order. */
  predicate IsListing(refs: map<string, ConfigRef>, objects: Objects, keys: set<string>, order: seq<Ref>) {
    AreTargets(refs, objects) ==> IsOrder(objects, order) && forall r <- order :: Key(r) in keys
  }

  lemma ListingExtends(refs: map<string, ConfigRef>, objects: Objects, keys: set<string>, order: seq<Ref>, k: string)
    requires IsListing(refs, objects, keys, order) && k in refs && k !in keys
    ensures IsListing(refs, objects, keys + {k}, order + [refs[k].ref])
  {
    assert forall i :: 0 <= i < |order| ==> order[i] in order;
  }

  lemma NotedOfThree(a: seq<Mention>, b: seq<Mention>, c: seq<Mention>)
    ensures Noted(Noted(map[], a), b + c) == Noted(map[], a + b + c)
  {
    NotedOfSum(map[], a, b + c);
    assert a + (b + c) == a + b + c;
  }

  lemma NotedInParts(vs: seq<Volume>, cs: seq<Container>, inits: seq<Container>)
    ensures Noted(Noted(map[], Collect(InVolume, vs)), Collect(InContainer, cs + inits)) ==
            Noted(map[], Collect(InVolume, vs) + Collect(InContainer, cs) + Collect(InContainer, inits))
  {
    CollectOfSum(InContainer, cs, inits);
    NotedOfThree(Collect(InVolume, vs), Collect(InContainer, cs), Collect(InContainer, inits));
  }

  /** The answer of a comparison against what is on record: whether some dependency has changed
      since a snapshot, whatever the objects and the template were at the time, or whether there
      is a dependency at all if there is no snapshot. */
  ghost predicate Notices(
    changed: bool, tracked: Option<CanaryStatus.Checksums>, now: Objects, ms': seq<Mention>, hash: Data -> string)
  {
    && (tracked.None? ==> (changed <==> exists m <- ms' :: IsDependency(now, m)))
    && forall before, ms | tracked == Some(Checksums(before, Noted(map[], ms), hash)) ::
         changed <==> exists r :: DependencyChanged(before, ms, now, ms', r)
  }

  lemma ChangesAreNoticed(tracked: Option<CanaryStatus.Checksums>, now: Objects, ms': seq<Mention>, hash: Data -> string)
    requires IsDigest(hash)
    ensures Notices(ConfigTracker.HasConfigChanged(tracked, Checksums(now, Noted(map[], ms'), hash)), tracked, now, ms', hash)
  {
    FirstSnapshotExactly(now, ms', hash);
    forall before, ms | tracked == Some(Checksums(before, Noted(map[], ms), hash)) {
      ChangeIsNoticedExactly(before, ms, now, ms', hash);
    }
  }

  class Store {
    var objects: Objects
    const hash: Data -> string
    const refused: set<Ref>  // objects the API server does not let us write

    /** Everything the template mentions, init containers included. */
    function Mentioned(spec: PodSpec): Names
      reads spec
    {
      Noted(map[], spec.Regular() + spec.Init())
    }

    method Scan(spec: PodSpec) returns (names: Names)
      ensures names == Mentioned(spec)
    {
      names := map[];
      names := NoteVolumes(names, spec.volumes);
      names := NoteContainers(names, spec.containers + spec.initContainers);
      NotedInParts(spec.volumes, spec.containers, spec.initContainers);
    }

    /** Reads every name; None is the error. The order in which the names are visited is not
        determined. */
    method Query(names: Names) returns (configs: Option<map<string, ConfigRef>>)
      ensures configs == if QueryFails(objects, names) then None else Some(TargetConfigs(objects, names, hash))
    {
      var todo, res: map<Ref, ConfigRef> := names.Keys, map[];
      while todo != {}
        invariant todo <= names.Keys
        invariant forall r <- names.Keys - todo :: names[r] ==> r in objects
        invariant forall r :: r in res <==> r in names.Keys - todo && r in objects && IsTracked(r, objects[r])
        invariant forall r <- res :: res[r] == ConfigRef(r, hash(objects[r].data))
        decreases |todo|
      {
        var r :| r in todo;
        todo := todo - {r};
        if r !in objects {
          if names[r] {
            return None;
          }
        } else if IsTracked(r, objects[r]) {
          res := res[r := ConfigRef(r, hash(objects[r].data))];
        }
      }
      assert res == map r <- Tracked(objects, names) :: ConfigRef(r, hash(objects[r].data));
      return Some(Keyed(res));
    }

    /** Scans the template and reads what it mentions. */
    method GetTargetConfigs(spec: PodSpec) returns (configs: Option<map<string, ConfigRef>>)
      ensures configs == if QueryFails(objects, Mentioned(spec)) then None
                         else Some(TargetConfigs(objects, Mentioned(spec), hash))
      ensures configs.None? <==>
                exists i: nat | i < |spec.Regular() + spec.Init()| :: IsMissing(objects, spec.Regular() + spec.Init(), i)
      ensures configs.Some? ==> forall k ::
                k in configs.value <==> exists m <- spec.Regular() + spec.Init() :: IsDependency(objects, m) && IsKeyOf(k, m)
      ensures configs.Some? ==>
                forall m <- spec.Regular() + spec.Init(), k <- configs.value | IsDependency(objects, m) && IsKeyOf(k, m) ::
                  configs.value[k].checksum == hash(objects[Ref(m.kind, m.reference.name)].data)
    {
      var names := Scan(spec);
      configs := Query(names);
      ghost var ms := spec.Regular() + spec.Init();
      FailsExactly(objects, ms);
      forall k: string
        ensures var found := TargetConfigs(objects, names, hash);
                && (k in found <==> exists m <- ms :: IsDependency(objects, m) && IsKeyOf(k, m))
                && forall m <- ms | IsDependency(objects, m) && IsKeyOf(k, m) ::
                     k in found && found[k].checksum == hash(objects[Ref(m.kind, m.reference.name)].data)
      {
        TrackedExactly(objects, ms, hash, k);
      }
    }

    /** The snapshot the status keeps. */
    method GetConfigRefs(spec: PodSpec) returns (refs: Option<CanaryStatus.Checksums>)
      ensures refs == if QueryFails(objects, Mentioned(spec)) then None
                      else Some(Checksums(objects, Mentioned(spec), hash))
    {
      var configs := GetTargetConfigs(spec);
      if configs.None? {
        return None;
      }
      var sums := Snapshot(configs.value);
      SnapshotIsChecksums(objects, Mentioned(spec), hash, sums);
      return Some(sums);
    }

    /** Reads the target's configs and compares them with the record. */
    method HasConfigChanged(spec: PodSpec, tracked: Option<CanaryStatus.Checksums>) returns (changed: Option<bool>)
      requires IsDigest(hash)
      ensures changed == if QueryFails(objects, Mentioned(spec)) then None
                         else Some(ConfigTracker.HasConfigChanged(tracked, Checksums(objects, Mentioned(spec), hash)))
      ensures changed.Some? ==> Notices(changed.value, tracked, objects, spec.Regular() + spec.Init(), hash)
    {
      var found := GetTargetConfigs(spec);
      if found.None? {
        return None;
      }
      SnapshotOf(objects, Mentioned(spec), hash);
      var differs := Compare(found.value, tracked, Checksums(objects, Mentioned(spec), hash));
      ChangesAreNoticed(tracked, objects, spec.Regular() + spec.Init(), hash);
      return Some(differs);
    }

    /** Upserts a copy of each tracked object, in some order. A refused write ends the loop
        with the copies made so far. */
    method CreatePrimaryConfigs(refs: map<string, ConfigRef>) returns (ok: bool, ghost order: seq<Ref>)
      modifies this`objects
      ensures objects == Copied(old(objects), order)
      ensures forall r <- order :: exists k <- refs :: refs[k].ref == r
      ensures ok ==> forall k <- refs :: refs[k].ref in order && refs[k].ref in objects
      ensures AreTargets(refs, old(objects)) ==> IsOrder(old(objects), order)
      ensures !ok ==> exists k <- refs :: refs[k].ref !in objects || Primary(refs[k].ref) in refused
    {
      var todo := refs.Keys;
      order := [];
      while todo != {}
        invariant todo <= refs.Keys
        invariant objects == Copied(old(objects), order)
        invariant forall r <- order :: exists k <- refs :: refs[k].ref == r
        invariant forall k <- refs.Keys - todo :: refs[k].ref in order && refs[k].ref in objects
        invariant IsListing(refs, old(objects), refs.Keys - todo, order)
        decreases |todo|
      {
        var k :| k in todo;
        todo := todo - {k};
        var r := refs[k].ref;
        if r !in objects {
          return false, order;
        }
        if Primary(r) in refused {
          return false, order;
        }
        ghost var next := order + [r];
        assert refs.Keys - todo == (refs.Keys - todo - {k}) + {k};
        ListingExtends(refs, old(objects), refs.Keys - todo - {k}, order, k);
        assert next[..|next| - 1] == order;
        objects := objects[Primary(r) := CopyOf(objects[r])];
        order := next;
      }
      ok := true;
    }

    /** What a promotion does about configs: find them, copy them, rename the references. */
    method PreparePrimary(spec: PodSpec) returns (ok: bool, ghost order: seq<Ref>)
      modifies this`objects, spec
      ensures objects == Copied(old(objects), order)
      ensures spec.Init() == old(spec.Init())
      ensures ok ==>
                var names := old(Mentioned(spec));
                && !QueryFails(old(objects), names)
                && (set r <- order) == Tracked(old(objects), names)
                && IsOrder(old(objects), order)
                && (NoClash(Tracked(old(objects), names)) ==>
                      AllCarried(old(objects), objects, Tracked(old(objects), names),
                                 old(spec.Regular()), spec.Regular()))
                && (old(spec.Init()) == [] ==>
                      (AllCarried(old(objects), objects, Tracked(old(objects), names),
                                  old(spec.Regular()), spec.Regular()) <==>
                       IsHarmless(old(objects), order)))
      ensures !ok ==> spec.Regular() == old(spec.Regular())
    {
      order := [];
      var configs := GetTargetConfigs(spec);
      if configs.None? {
        return false, order;
      }
      ghost var names, ms := Mentioned(spec), spec.Regular();
      ok, order := CreatePrimaryConfigs(configs.value);
      if ok {
        CopiesAllTracked(old(objects), names, hash, order);
        spec.ApplyPrimaryConfigs(configs.value.Keys);
        if NoClash(Tracked(old(objects), names)) {
          PrimaryConfigsAreIntact(old(objects), names, hash, order, ms);
        }
        if spec.Init() == [] {
          assert ms + spec.Init() == ms;
          IntactExactlyIfHarmless(old(objects), names, hash, order, ms);
        }
      }
    }
  }

  lemma CopiesAllTracked(objects: Objects, names: Names, hash: Data -> string, order: seq<Ref>)
    requires var refs := TargetConfigs(objects, names, hash);
             && (forall r <- order :: exists k <- refs :: refs[k].ref == r)
             && (forall k <- refs :: refs[k].ref in order)
    ensures (set r <- order) == Tracked(objects, names)
    ensures AreTargets(TargetConfigs(objects, names, hash), objects)
  {
    var all := map q <- Tracked(objects, names) :: ConfigRef(q, hash(objects[q].data));
    var refs := TargetConfigs(objects, names, hash);
    assert refs == Keyed(all);
    forall r <- Tracked(objects, names) ensures r in order {
      assert Key(r) in refs && refs[Key(r)] == all[r];
    }
    forall r <- order ensures r in Tracked(objects, names) {
      var k :| k in refs && refs[k].ref == r;
      assert k == Key(RefOfKey(k)) && refs[k] == all[RefOfKey(k)];
    }
  }

  /** The snapshot has the checksums of the target's configs, under the same keys. */
  lemma SnapshotOf(objects: Objects, names: Names, hash: Data -> string)
    ensures var configs, sums := TargetConfigs(objects, names, hash), Checksums(objects, names, hash);
            && configs.Keys == sums.Keys && |configs| == |sums|
            && (forall k <- configs :: configs[k].checksum == sums[k] == hash(objects[configs[k].ref].data))
  {
    var configs, sums := TargetConfigs(objects, names, hash), Checksums(objects, names, hash);
    assert configs.Keys == sums.Keys;
    assert |configs| == |configs.Keys| && |sums| == |sums.Keys|;
  }

  lemma SnapshotIsChecksums(
    objects: Objects, names: Names, hash: Data -> string, sums: CanaryStatus.Checksums)
    requires var configs := TargetConfigs(objects, names, hash);
             sums.Keys == configs.Keys && forall k <- configs :: sums[k] == configs[k].checksum
    ensures sums == Checksums(objects, names, hash)
  {
    SnapshotOf(objects, names, hash);
  }

  // ---------------------------------------------------------------------------
  // The primary's configs
  // ---------------------------------------------------------------------------

  /** A mention of the primary's template against the same mention of the target's: tracked
      ones are renamed once and lead to an object with the same data, the others are as they
      were. */
  predicate Carried(before: Objects, after: Objects, tracked: set<Ref>, m: Mention, m': Mention) {
    if RefOf(m) in tracked then
      && m'.kind == m.kind && m'.reference.name == m.reference.name + "-primary"
      && m'.reference.optional == m.reference.optional
      && RefOf(m) in before && RefOf(m') in after && after[RefOf(m')].data == before[RefOf(m)].data
    else m' == m
  }

  ghost predicate AllCarried(
    before: Objects, after: Objects, tracked: set<Ref>, ms: seq<Mention>, ms': seq<Mention>)
  {
    |ms| == |ms'| && forall i | 0 <= i < |ms| :: Carried(before, after, tracked, ms[i], ms'[i])
  }

  /** A mention is carried over exactly if its copy has the data, should it be tracked. */
  lemma RenamedIsCarried(objects: Objects, names: Names, hash: Data -> string, order: seq<Ref>, m: Mention)
    ensures var keys := TargetConfigs(objects, names, hash).Keys;
            Carried(objects, Copied(objects, order), Tracked(objects, names), m, Renamed(m, keys)) <==>
            (RefOf(m) in Tracked(objects, names) ==> CarriesData(objects, order, RefOf(m)))
  {
    var r := RefOf(m);
    var all := map q <- Tracked(objects, names) :: ConfigRef(q, hash(objects[q].data));
    assert Key(r) in Keyed(all) <==> r in all;
  }

  /** Main result: after the copying and the renaming, every mention in volumes, projected
      sources and regular containers is carried over. */
  lemma PrimaryConfigsAreIntact(
    objects: Objects, names: Names, hash: Data -> string, order: seq<Ref>, ms: seq<Mention>)
    requires var tracked := Tracked(objects, names); NoClash(tracked) && tracked == set r <- order
    ensures var keys := TargetConfigs(objects, names, hash).Keys;
            AllCarried(objects, Copied(objects, order), Tracked(objects, names),
                       ms, Mapped(RenameMention(keys), ms))
  {
    var keys := TargetConfigs(objects, names, hash).Keys;
    forall i | 0 <= i < |ms|
      ensures Carried(objects, Copied(objects, order), Tracked(objects, names),
                      ms[i], Mapped(RenameMention(keys), ms)[i])
    {
      RenamedIsCarried(objects, names, hash, order, ms[i]);
      if RefOf(ms[i]) in Tracked(objects, names) {
        WithoutClashCarries(objects, order, RefOf(ms[i]));
      }
    }
  }

  /** With clashes or without, for a template without init containers: every mention is
      carried over exactly if the order of the copies was harmless. */
  lemma IntactExactlyIfHarmless(
    objects: Objects, names: Names, hash: Data -> string, order: seq<Ref>, ms: seq<Mention>)
    requires IsOrder(objects, order) && Tracked(objects, names) == set r <- order
    requires names == Noted(map[], ms)
    ensures var keys := TargetConfigs(objects, names, hash).Keys;
            AllCarried(objects, Copied(objects, order), Tracked(objects, names),
                       ms, Mapped(RenameMention(keys), ms)) <==>
            IsHarmless(objects, order)
  {
    CarriesExactly(objects, order);
    assert forall r <- order :: r in (set q <- order);
    forall i | 0 <= i < |ms| {
      RenamedIsCarried(objects, names, hash, order, ms[i]);
    }
    forall r <- order ensures exists i :: 0 <= i < |ms| && RefOf(ms[i]) == r {
      assert r in Tracked(objects, names);
      LastMentionDecides(ms, r);
    }
  }

  /** Every mention, init containers included, is carried over exactly if no init container
      mentions a tracked object. */
  lemma IntactExactly(before: Objects, after: Objects, tracked: set<Ref>, keys: set<string>,
                      regular: seq<Mention>, init: seq<Mention>)
    requires AllCarried(before, after, tracked, regular, Mapped(RenameMention(keys), regular))
    ensures AllCarried(before, after, tracked, regular + init, Mapped(RenameMention(keys), regular) + init) <==>
            forall m <- init :: RefOf(m) !in tracked
  {
    var all, primary := regular + init, Mapped(RenameMention(keys), regular) + init;
    forall i | 0 <= i < |init|
      ensures Carried(before, after, tracked, all[|regular| + i], primary[|regular| + i]) <==> RefOf(init[i]) !in tracked
    {
      assert all[|regular| + i] == primary[|regular| + i] == init[i];
      assert |Primary(RefOf(init[i])).name| > |init[i].reference.name|;
    }
    assert forall i | 0 <= i < |regular| :: all[i] == regular[i] && primary[i] == Mapped(RenameMention(keys), regular)[i];
    if forall m <- init :: RefOf(m) !in tracked {
      forall i | 0 <= i < |all|
        ensures Carried(before, after, tracked, all[i], primary[i])
      {
        if i >= |regular| {
          assert all[|regular| + (i - |regular|)] == init[i - |regular|];
          assert init[i - |regular|] in init;
        }
      }
    } else {
      var m :| m in init && RefOf(m) in tracked;
      var i :| 0 <= i < |init| && init[i] == m;
      assert !Carried(before, after, tracked, all[|regular| + i], primary[|regular| + i]);
    }
  }
}
