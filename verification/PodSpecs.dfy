// Where a pod template refers to ConfigMaps and Secrets, and the in-place renaming of those
// references (pkg/canary/config_tracker.go).

module PodSpecs {
  import opened Options

  datatype Kind = ConfigMap | Secret

  datatype Ref = Ref(kind: Kind, name: string)

  datatype Reference = Reference(name: string, optional: Option<bool>)

  /** A place that can refer to a ConfigMap, to a Secret, or to both. */
  datatype Source = Source(configMap: Option<Reference>, secret: Option<Reference>)

  datatype Volume = Volume(own: Source, projected: seq<Source>)

  datatype Container = Container(env: seq<Source>, envFrom: seq<Source>)

  /** A reference with the kind of object it names. */
  datatype Mention = Mention(kind: Kind, reference: Reference)

  const PRIMARY := "-primary"

  function RefOf(m: Mention): Ref {
    Ref(m.kind, m.reference.name)
  }

  /** The key of a reference in maps of configs: its type, a slash, its name. */
  function Key(r: Ref): string {
    (match r.kind case ConfigMap => "configmap/" case Secret => "secret/") + r.name
  }

  function RefOfKey(key: string): Ref {
    if "configmap/" <= key then Ref(ConfigMap, key[|"configmap/"|..])
    else if "secret/" <= key then Ref(Secret, key[|"secret/"|..])
    else Ref(Secret, key)
  }

  lemma KeyIsInjective(r: Ref)
    ensures RefOfKey(Key(r)) == r
  {
    var k := Key(r);
    if r.kind.ConfigMap? {
      assert k[|"configmap/"|..] == r.name;
    } else {
      assert k[0] == 's' && "configmap/"[0] == 'c';
      assert k[|"secret/"|..] == r.name;
    }
  }

  /** Volumes and projected sources: the ConfigMap and the Secret both count. */
  function Every(s: Source): seq<Mention> {
    (if s.configMap.Some? then [Mention(ConfigMap, s.configMap.value)] else []) +
    (if s.secret.Some? then [Mention(Secret, s.secret.value)] else [])
  }

  /** Environment entries: the ConfigMap hides the Secret. */
  function First(s: Source): seq<Mention> {
    if s.configMap.Some? then [Mention(ConfigMap, s.configMap.value)]
    else if s.secret.Some? then [Mention(Secret, s.secret.value)]
    else []
  }

  function Collect<T>(f: T -> seq<Mention>, xs: seq<T>): seq<Mention> {
    if xs == [] then [] else Collect(f, xs[..|xs| - 1]) + f(xs[|xs| - 1])
  }

  function InVolume(v: Volume): seq<Mention> {
    Every(v.own) + Collect(Every, v.projected)
  }

  function InContainer(c: Container): seq<Mention> {
    Collect(First, c.env) + Collect(First, c.envFrom)
  }

  lemma {:induction false} CollectMeans<T>(f: T -> seq<Mention>, xs: seq<T>, m: Mention)
    ensures m in Collect(f, xs) <==> exists x <- xs :: m in f(x)
  {
    if xs != [] {
      CollectMeans(f, xs[..|xs| - 1], m);
      assert xs == xs[..|xs| - 1] + [xs[|xs| - 1]];
    }
  }

  /** The source refers to this object, by this reference. */
  predicate Names(s: Source, m: Mention) {
    match m.kind
    case ConfigMap => s.configMap == Some(m.reference)
    case Secret => s.secret == Some(m.reference)
  }

  predicate VolumeNames(v: Volume, m: Mention) {
    Names(v.own, m) || exists s <- v.projected :: Names(s, m)
  }

  /** An environment entry that names a ConfigMap and a Secret counts for the ConfigMap. */
  predicate ContainerNames(c: Container, m: Mention) {
    exists s <- c.env + c.envFrom :: Names(s, m) && (m.kind.Secret? ==> s.configMap.None?)
  }

  lemma VolumeMentionsNamed(v: Volume, m: Mention)
    ensures m in InVolume(v) <==> VolumeNames(v, m)
  {
    CollectMeans(Every, v.projected, m);
    assert forall s: Source :: m in Every(s) <==> Names(s, m);
  }

  lemma ContainerMentionsNamed(c: Container, m: Mention)
    ensures m in InContainer(c) <==> ContainerNames(c, m)
  {
    CollectMeans(First, c.env, m);
    CollectMeans(First, c.envFrom, m);
    assert forall s: Source :: m in First(s) <==> Names(s, m) && (m.kind.Secret? ==> s.configMap.None?);
  }

  /** What a list of volumes mentions: everything the volumes and their projected sources name. */
  lemma VolumesMention(vs: seq<Volume>, m: Mention)
    ensures m in Collect(InVolume, vs) <==> exists v <- vs :: VolumeNames(v, m)
  {
    CollectMeans(InVolume, vs, m);
    forall v <- vs {
      VolumeMentionsNamed(v, m);
    }
  }

  /** What a list of containers mentions. */
  lemma ContainersMention(cs: seq<Container>, m: Mention)
    ensures m in Collect(InContainer, cs) <==> exists c <- cs :: ContainerNames(c, m)
  {
    CollectMeans(InContainer, cs, m);
    forall c <- cs {
      ContainerMentionsNamed(c, m);
    }
  }

  // ---------------------------------------------------------------------------
  // Renaming
  // ---------------------------------------------------------------------------

  function Renamed(m: Mention, refs: set<string>): Mention {
    if Key(RefOf(m)) in refs then m.(reference := m.reference.(name := m.reference.name + PRIMARY)) else m
  }

  function RenamedReference(kind: Kind, r: Reference, refs: set<string>): Reference {
    Renamed(Mention(kind, r), refs).reference
  }

  function RenamedConfigMap(s: Source, refs: set<string>): Source {
    if s.configMap.Some? then s.(configMap := Some(RenamedReference(ConfigMap, s.configMap.value, refs))) else s
  }

  function RenamedSecret(s: Source, refs: set<string>): Source {
    if s.secret.Some? then s.(secret := Some(RenamedReference(Secret, s.secret.value, refs))) else s
  }

  function RenameEvery(refs: set<string>): Source -> Source {
    (s: Source) => RenamedSecret(RenamedConfigMap(s, refs), refs)
  }

  function RenameFirst(refs: set<string>): Source -> Source {
    (s: Source) => if s.configMap.Some? then RenamedConfigMap(s, refs) else RenamedSecret(s, refs)
  }

  function Mapped<T>(f: T -> T, xs: seq<T>): seq<T> {
    seq(|xs|, i requires 0 <= i < |xs| => f(xs[i]))
  }

  function RenameMention(refs: set<string>): Mention -> Mention {
    (m: Mention) => Renamed(m, refs)
  }

  function RenameVolume(refs: set<string>): Volume -> Volume {
    (v: Volume) => Volume(RenameEvery(refs)(v.own), Mapped(RenameEvery(refs), v.projected))
  }

  function RenameContainer(refs: set<string>): Container -> Container {
    (c: Container) => Container(Mapped(RenameFirst(refs), c.env), Mapped(RenameFirst(refs), c.envFrom))
  }

  /** Renaming each part renames exactly what the part mentions. */
  lemma {:induction false} CollectOfMapped<T>(f: T -> seq<Mention>, g: T -> T, refs: set<string>, xs: seq<T>)
    requires forall x <- xs :: f(g(x)) == Mapped(RenameMention(refs), f(x))
    ensures Collect(f, Mapped(g, xs)) == Mapped(RenameMention(refs), Collect(f, xs))
  {
    if xs != [] {
      var n := |xs| - 1;
      assert Mapped(g, xs)[..n] == Mapped(g, xs[..n]);
      CollectOfMapped(f, g, refs, xs[..n]);
      assert xs[n] in xs;
    }
  }

  lemma EveryOfRenamed(s: Source, refs: set<string>)
    ensures Every(RenameEvery(refs)(s)) == Mapped(RenameMention(refs), Every(s))
  {
  }

  lemma FirstOfRenamed(s: Source, refs: set<string>)
    ensures First(RenameFirst(refs)(s)) == Mapped(RenameMention(refs), First(s))
  {
  }

  lemma MappedOfSum(refs: set<string>, a: seq<Mention>, b: seq<Mention>)
    ensures Mapped(RenameMention(refs), a + b) == Mapped(RenameMention(refs), a) + Mapped(RenameMention(refs), b)
  {
  }

  lemma VolumeMentions(v: Volume, refs: set<string>)
    ensures InVolume(RenameVolume(refs)(v)) == Mapped(RenameMention(refs), InVolume(v))
  {
    forall s: Source {
      EveryOfRenamed(s, refs);
    }
    CollectOfMapped(Every, RenameEvery(refs), refs, v.projected);
    MappedOfSum(refs, Every(v.own), Collect(Every, v.projected));
  }

  lemma ContainerMentions(c: Container, refs: set<string>)
    ensures InContainer(RenameContainer(refs)(c)) == Mapped(RenameMention(refs), InContainer(c))
  {
    forall s: Source {
      FirstOfRenamed(s, refs);
    }
    CollectOfMapped(First, RenameFirst(refs), refs, c.env);
    CollectOfMapped(First, RenameFirst(refs), refs, c.envFrom);
    MappedOfSum(refs, Collect(First, c.env), Collect(First, c.envFrom));
  }

  /** The mentions of a whole template, renamed part by part. */
  lemma PodMentions(vs: seq<Volume>, cs: seq<Container>, refs: set<string>)
    ensures Collect(InVolume, Mapped(RenameVolume(refs), vs)) + Collect(InContainer, Mapped(RenameContainer(refs), cs))
            == Mapped(RenameMention(refs), Collect(InVolume, vs) + Collect(InContainer, cs))
  {
    forall v: Volume {
      VolumeMentions(v, refs);
    }
    forall c: Container {
      ContainerMentions(c, refs);
    }
    CollectOfMapped(InVolume, RenameVolume(refs), refs, vs);
    CollectOfMapped(InContainer, RenameContainer(refs), refs, cs);
    MappedOfSum(refs, Collect(InVolume, vs), Collect(InContainer, cs));
  }

  lemma {:induction false} CollectOfSum<T>(f: T -> seq<Mention>, xs: seq<T>, ys: seq<T>)
    ensures Collect(f, xs + ys) == Collect(f, xs) + Collect(f, ys)
  {
    if ys == [] {
      assert xs + ys == xs;
    } else {
      var n := |ys| - 1;
      assert (xs + ys)[..|xs| + n] == xs + ys[..n];
      CollectOfSum(f, xs, ys[..n]);
    }
  }

  // ---------------------------------------------------------------------------
  // The pod template, updated in place
  // ---------------------------------------------------------------------------

  class PodSpec {
    var volumes: seq<Volume>
    var containers: seq<Container>
    var initContainers: seq<Container>

    /** What the primary's template should refer to by its own name. */
    function Regular(): seq<Mention>
      reads this
    {
      Collect(InVolume, volumes) + Collect(InContainer, containers)
    }

    function Init(): seq<Mention>
      reads this
    {
      Collect(InContainer, initContainers)
    }

    method RenameProjected(i: nat, refs: set<string>)
      requires i < |volumes|
      modifies this`volumes
      ensures volumes == old(volumes)[i := old(volumes)[i].(
                projected := Mapped(RenameEvery(refs), old(volumes)[i].projected))]
    {
      var n := |volumes[i].projected|;
      for s := 0 to n
        invariant |volumes| == |old(volumes)|
        invariant forall k | 0 <= k < |volumes| && k != i :: volumes[k] == old(volumes)[k]
        invariant volumes[i].own == old(volumes)[i].own && |volumes[i].projected| == n
        invariant forall k | 0 <= k < s ::
                    volumes[i].projected[k] == RenameEvery(refs)(old(volumes)[i].projected[k])
        invariant forall k | s <= k < n :: volumes[i].projected[k] == old(volumes)[i].projected[k]
      {
        var source := volumes[i].projected[s];
        if source.configMap.Some? {
          var name := source.configMap.value.name;
          if Key(Ref(ConfigMap, name)) in refs {
            source := source.(configMap := Some(source.configMap.value.(name := name + PRIMARY)));
          }
        }
        if source.secret.Some? {
          var name := source.secret.value.name;
          if Key(Ref(Secret, name)) in refs {
            source := source.(secret := Some(source.secret.value.(name := name + PRIMARY)));
          }
        }
        volumes := volumes[i := volumes[i].(projected := volumes[i].projected[s := source])];
      }
      assert volumes[i].projected == Mapped(RenameEvery(refs), old(volumes)[i].projected);
    }

    method RenameVolumes(refs: set<string>)
      modifies this`volumes
      ensures volumes == Mapped(RenameVolume(refs), old(volumes))
    {
      for i := 0 to |volumes|
        invariant |volumes| == |old(volumes)|
        invariant forall k | 0 <= k < i :: volumes[k] == RenameVolume(refs)(old(volumes)[k])
        invariant forall k | i <= k < |volumes| :: volumes[k] == old(volumes)[k]
      {
        var own := volumes[i].own;
        if own.configMap.Some? {
          var name := own.configMap.value.name;
          if Key(Ref(ConfigMap, name)) in refs {
            own := own.(configMap := Some(own.configMap.value.(name := name + PRIMARY)));
          }
        }
        if own.secret.Some? {
          var name := own.secret.value.name;
          if Key(Ref(Secret, name)) in refs {
            own := own.(secret := Some(own.secret.value.(name := name + PRIMARY)));
          }
        }
        volumes := volumes[i := volumes[i].(own := own)];
        RenameProjected(i, refs);
      }
    }

    /** One list of environment entries. */
    method RenameEntries(entries: seq<Source>, refs: set<string>) returns (renamed: seq<Source>)
      ensures renamed == Mapped(RenameFirst(refs), entries)
    {
      renamed := entries;
      for i := 0 to |entries|
        invariant |renamed| == |entries|
        invariant forall k | 0 <= k < i :: renamed[k] == RenameFirst(refs)(entries[k])
        invariant forall k | i <= k < |entries| :: renamed[k] == entries[k]
      {
        var source := renamed[i];
        if source.configMap.Some? {
          var name := source.configMap.value.name;
          if Key(Ref(ConfigMap, name)) in refs {
            renamed := renamed[i := source.(configMap := Some(source.configMap.value.(name := name + PRIMARY)))];
          }
        } else if source.secret.Some? {
          var name := source.secret.value.name;
          if Key(Ref(Secret, name)) in refs {
            renamed := renamed[i := source.(secret := Some(source.secret.value.(name := name + PRIMARY)))];
          }
        }
      }
    }

    method RenameContainers(refs: set<string>)
      modifies this`containers
      ensures containers == Mapped(RenameContainer(refs), old(containers))
    {
      for i := 0 to |containers|
        invariant |containers| == |old(containers)|
        invariant forall k | 0 <= k < i :: containers[k] == RenameContainer(refs)(old(containers)[k])
        invariant forall k | i <= k < |containers| :: containers[k] == old(containers)[k]
      {
        var env := RenameEntries(containers[i].env, refs);
        containers := containers[i := containers[i].(env := env)];
        var envFrom := RenameEntries(containers[i].envFrom, refs);
        containers := containers[i := containers[i].(envFrom := envFrom)];
      }
    }

    /** Every mention in volumes and regular containers is renamed once if it is tracked, and
        left alone otherwise; init containers are never renamed. */
    method ApplyPrimaryConfigs(refs: set<string>)
      modifies this
      ensures Regular() == Mapped(RenameMention(refs), old(Regular()))
      ensures volumes == Mapped(RenameVolume(refs), old(volumes))
      ensures containers == Mapped(RenameContainer(refs), old(containers))
      ensures initContainers == old(initContainers)
    {
      RenameVolumes(refs);
      RenameContainers(refs);
      PodMentions(old(volumes), old(containers), refs);
    }
  }
}
