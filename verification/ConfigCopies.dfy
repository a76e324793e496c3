// Copies of ConfigMaps and Secrets for the primary, made one after the other in an order that
// is not determined (CreatePrimaryConfigs in pkg/canary/config_tracker.go).

module ConfigCopies {
  import opened PodSpecs

  type Data = map<string, string>

  datatype SecretType = OpaqueType | BasicAuth | SSHAuth | TLS | OtherType

  /** `tracking` is the value of the annotation that can turn tracking off. */
  datatype Object = Object(data: Data, tracking: string, secretType: SecretType)

  type Objects = map<Ref, Object>

  function Primary(r: Ref): Ref {
    r.(name := r.name + PRIMARY)
  }

  /** The copy made for the primary: annotations are not carried over. */
  function CopyOf(o: Object): Object {
    o.(tracking := "")
  }

  /** The store after copying, one after the other. */
  function Copied(objects: Objects, order: seq<Ref>): Objects {
    if order == [] then objects
    else
      var before := Copied(objects, order[..|order| - 1]);
      var r := order[|order| - 1];
      if r in before then before[Primary(r) := CopyOf(before[r])] else before
  }

  /** No tracked name is another tracked name with the suffix. */
  predicate NoClash(rs: set<Ref>) {
    forall r <- rs :: Primary(r) !in rs
  }

  lemma PrimaryIsInjective(r: Ref, s: Ref)
    requires Primary(r) == Primary(s)
    ensures r == s
  {
    assert (r.name + PRIMARY)[..|r.name|] == r.name;
    assert (s.name + PRIMARY)[..|s.name|] == s.name;
  }

  /** Without a clash the order does not matter: every tracked object is as it was, every
      copy has its data, and nothing else changes. */
  lemma {:induction false} CopiedExactly(objects: Objects, order: seq<Ref>, q: Ref)
    requires NoClash(set r <- order) && forall r <- order :: r in objects
    ensures q in Copied(objects, order) <==> q in objects || exists r <- order :: q == Primary(r)
    ensures forall r <- order :: q == Ref(r.kind, r.name + "-primary") ==>
              && q in Copied(objects, order) && Copied(objects, order)[q].data == objects[r].data
              && Copied(objects, order)[q].secretType == objects[r].secretType && Copied(objects, order)[q].tracking == ""
    ensures q in objects && (forall r <- order :: q != Primary(r)) ==> Copied(objects, order)[q] == objects[q]
  {
    if order != [] {
      var init, last := order[..|order| - 1], order[|order| - 1];
      assert order == init + [last];
      assert (set r <- init) <= (set r <- order);
      CopiedExactly(objects, init, q);
      CopiedExactly(objects, init, last);
      assert last in (set r <- order);
      assert forall r <- init :: last != Primary(r) by {
        assert forall r <- init :: r in (set r <- order);
      }
      if q == Primary(last) {
        forall r <- order | q == Primary(r) ensures r == last {
          PrimaryIsInjective(r, last);
        }
      }
    }
  }

  lemma {:induction false} Untouched(objects: Objects, order: seq<Ref>, q: Ref)
    requires forall r <- order :: Primary(r) != q
    ensures q in Copied(objects, order) <==> q in objects
    ensures q in objects ==> Copied(objects, order)[q] == objects[q]
  {
    if order != [] {
      assert order == order[..|order| - 1] + [order[|order| - 1]];
      Untouched(objects, order[..|order| - 1], q);
    }
  }

  // ---------------------------------------------------------------------------
  // Clashing names
  // ---------------------------------------------------------------------------

  /** Each name once, and all of them there. */
  predicate IsOrder(objects: Objects, order: seq<Ref>) {
    && (forall i, j :: 0 <= i < j < |order| ==> order[i] != order[j])
    && forall i :: 0 <= i < |order| ==> order[i] in objects
  }

  lemma PrefixIsOrder(objects: Objects, order: seq<Ref>, n: nat)
    requires IsOrder(objects, order) && n <= |order|
    ensures IsOrder(objects, order[..n])
  {
  }

  lemma {:induction false} CopiedGrows(objects: Objects, order: seq<Ref>, r: Ref)
    requires r in objects
    ensures r in Copied(objects, order)
  {
    if order != [] {
      CopiedGrows(objects, order[..|order| - 1], r);
    }
  }

  /** The data that is read when the i-th copy is made. */
  function ReadAt(objects: Objects, order: seq<Ref>, i: nat): Data
    requires i < |order|
  {
    var before := Copied(objects, order[..i]);
    if order[i] in before then before[order[i]].data else map[]
  }

  /** The i-th copy keeps what was read when it was made. */
  lemma {:induction false} CopyIsKept(objects: Objects, order: seq<Ref>, i: nat)
    requires IsOrder(objects, order) && i < |order|
    ensures Primary(order[i]) in Copied(objects, order)
    ensures Copied(objects, order)[Primary(order[i])].data == ReadAt(objects, order, i)
  {
    var n := |order| - 1;
    PrefixIsOrder(objects, order, n);
    if i < n {
      CopyIsKept(objects, order[..n], i);
      assert order[..n][..i] == order[..i] && order[..n][i] == order[i];
      if Primary(order[n]) == Primary(order[i]) {
        PrimaryIsInjective(order[n], order[i]);
      }
    } else {
      CopiedGrows(objects, order[..n], order[n]);
    }
  }

  /** What is read is the object's own data, unless its name is that of an earlier copy. */
  lemma ReadsOwn(objects: Objects, order: seq<Ref>, i: nat)
    requires IsOrder(objects, order) && i < |order|
    requires forall j :: 0 <= j < i ==> Primary(order[j]) != order[i]
    ensures ReadAt(objects, order, i) == objects[order[i]].data
  {
    assert forall r <- order[..i] :: Primary(r) != order[i];
    Untouched(objects, order[..i], order[i]);
  }

  lemma ReadsCopy(objects: Objects, order: seq<Ref>, i: nat, j: nat)
    requires IsOrder(objects, order) && j < i < |order| && Primary(order[j]) == order[i]
    ensures ReadAt(objects, order, i) == ReadAt(objects, order, j)
  {
    PrefixIsOrder(objects, order, i);
    CopyIsKept(objects, order[..i], j);
    assert order[..i][..j] == order[..j] && order[..i][j] == order[j];
  }

  /** Wherever a copy is made over an object that has yet to be copied, the data agree. */
  predicate IsHarmless(objects: Objects, order: seq<Ref>)
    requires IsOrder(objects, order)
  {
    forall i, j :: 0 <= j < i < |order| && Primary(order[j]) == order[i] ==>
      objects[order[j]].data == objects[order[i]].data
  }

  predicate ReadsOwnUpTo(objects: Objects, order: seq<Ref>, n: nat)
    requires IsOrder(objects, order) && n <= |order|
  {
    forall i :: 0 <= i < n ==> ReadAt(objects, order, i) == objects[order[i]].data
  }

  lemma {:induction false} HarmlessReadsOwn(objects: Objects, order: seq<Ref>, n: nat)
    requires IsOrder(objects, order) && IsHarmless(objects, order) && n <= |order|
    ensures ReadsOwnUpTo(objects, order, n)
  {
    if n > 0 {
      HarmlessReadsOwn(objects, order, n - 1);
      var i: nat := n - 1;
      if j: nat :| j < i && Primary(order[j]) == order[i] {
        ReadsCopy(objects, order, i, j);
        assert ReadAt(objects, order, j) == objects[order[j]].data;
      } else {
        ReadsOwn(objects, order, i);
      }
    }
  }

  /** The copy of `r` has the data of `r`. */
  predicate CarriesData(objects: Objects, order: seq<Ref>, r: Ref) {
    && r in objects && Primary(r) in Copied(objects, order)
    && Copied(objects, order)[Primary(r)].data == objects[r].data
  }

  lemma WithoutClashCarries(objects: Objects, order: seq<Ref>, r: Ref)
    requires NoClash(set q <- order) && (forall q <- order :: q in objects) && r in order
    ensures CarriesData(objects, order, r)
  {
    CopiedExactly(objects, order, Primary(r));
  }

  /** Main result on clashes: every copy has the data of its original exactly if, wherever a
      copy is made over an object that has yet to be copied, the data agree. */
  lemma CarriesExactly(objects: Objects, order: seq<Ref>)
    requires IsOrder(objects, order)
    ensures (forall r <- order :: CarriesData(objects, order, r)) <==> IsHarmless(objects, order)
  {
    forall i: nat | i < |order|
      ensures CarriesData(objects, order, order[i]) <==> ReadAt(objects, order, i) == objects[order[i]].data
    {
      CopyIsKept(objects, order, i);
    }
    if IsHarmless(objects, order) {
      HarmlessReadsOwn(objects, order, |order|);
      forall r <- order ensures CarriesData(objects, order, r) {
        var i: nat :| i < |order| && order[i] == r;
      }
    }
    if forall r <- order :: CarriesData(objects, order, r) {
      forall i: nat, j: nat | j < i < |order| && Primary(order[j]) == order[i]
        ensures objects[order[j]].data == objects[order[i]].data
      {
        ReadsCopy(objects, order, i, j);
        assert order[i] in order && order[j] in order;
      }
    }
  }

  /** Whenever a name and the name of its copy are both among these, their data agree. */
  predicate ClashesAgree(objects: Objects, rs: set<Ref>)
    requires forall r <- rs :: r in objects
  {
    forall r <- rs | Primary(r) in rs :: objects[r].data == objects[Primary(r)].data
  }

  /** Every order carries the data over exactly if clashing names have the same data. */
  lemma AllOrdersCarryExactly(objects: Objects, rs: set<Ref>)
    requires forall r <- rs :: r in objects
    ensures (forall order | IsOrder(objects, order) && (set r <- order) == rs :: IsHarmless(objects, order)) <==>
            ClashesAgree(objects, rs)
  {
    if ClashesAgree(objects, rs) {
      forall order | IsOrder(objects, order) && (set r <- order) == rs
        ensures IsHarmless(objects, order)
      {
        forall i: nat, j: nat | j < i < |order| && Primary(order[j]) == order[i]
          ensures objects[order[j]].data == objects[order[i]].data
        {
          assert order[i] in (set r <- order) && order[j] in (set r <- order);
        }
      }
    } else {
      var r :| r in rs && Primary(r) in rs && objects[r].data != objects[Primary(r)].data;
      var rest := Listed(rs - {r, Primary(r)});
      var order := [r, Primary(r)] + rest;
      assert r != Primary(r) by {
        assert |Primary(r).name| > |r.name|;
      }
      assert forall q :: q in order <==> q in rs;
      assert (set q <- order) == rs;
      assert forall i :: 0 <= i < |rest| ==> rest[i] in rest;
      assert IsOrder(objects, order);
      assert Primary(order[0]) == order[1];
      assert !IsHarmless(objects, order);
    }
  }

  lemma {:induction false} Listed(rs: set<Ref>) returns (order: seq<Ref>)
    ensures forall i, j :: 0 <= i < j < |order| ==> order[i] != order[j]
    ensures forall q :: q in order <==> q in rs
    decreases |rs|
  {
    order := [];
    if rs != {} {
      var r :| r in rs;
      var rest := Listed(rs - {r});
      order := [r] + rest;
    }
  }

  /** An order that always carries: longer names first. */
  lemma LongestFirstCarries(objects: Objects, order: seq<Ref>)
    requires IsOrder(objects, order)
    requires forall i, j :: 0 <= i < j < |order| ==> |order[i].name| >= |order[j].name|
    ensures IsHarmless(objects, order)
  {
    forall i: nat, j: nat | j < i < |order|
      ensures Primary(order[j]) != order[i]
    {
      assert |Primary(order[j]).name| > |order[j].name|;
    }
  }

  /** What becomes of the target's own objects, whatever the order: all of them keep their data
      exactly if clashing names have the same data. */
  lemma TargetKeepsExactly(objects: Objects, order: seq<Ref>)
    requires IsOrder(objects, order)
    ensures TargetKeeps(objects, order) <==>
            ClashesAgree(objects, set r <- order)
  {
    var after, rs := Copied(objects, order), set r <- order;
    assert forall i :: 0 <= i < |order| ==> order[i] in rs;
    if ClashesAgree(objects, rs) {
      HarmlessReadsOwn(objects, order, |order|);
      forall i: nat | i < |order|
        ensures order[i] in after && after[order[i]].data == objects[order[i]].data
      {
        TargetObjectEnds(objects, order, i);
      }
    }
    if TargetKeeps(objects, order) {
      forall r <- rs | Primary(r) in rs
        ensures objects[r].data == objects[Primary(r)].data
      {
        var i: nat :| i < |order| && order[i] == r;
        assert Primary(r) in order;
        KeptMeansAgreed(objects, order, i);
      }
    }
  }

  ghost predicate TargetKeeps(objects: Objects, order: seq<Ref>)
    requires IsOrder(objects, order)
  {
    forall r <- order :: r in Copied(objects, order) && Copied(objects, order)[r].data == objects[r].data
  }

  lemma KeptMeansAgreed(objects: Objects, order: seq<Ref>, i: nat)
    requires IsOrder(objects, order) && TargetKeeps(objects, order)
    requires i < |order| && Primary(order[i]) in order
    ensures objects[order[i]].data == objects[Primary(order[i])].data
  {
    CopyIsKept(objects, order, i);
    assert order[i] in order;
    if j: nat :| j < |order| && Primary(order[j]) == order[i] {
      CopyIsKept(objects, order, j);
      if j < i {
        ReadsCopy(objects, order, i, j);
      } else {
        EarlierCopyOnly(objects, order, i, j);
      }
    } else {
      ReadsOwn(objects, order, i);
    }
  }

  /** A copy made later does not change what was read before. */
  lemma EarlierCopyOnly(objects: Objects, order: seq<Ref>, i: nat, j: nat)
    requires IsOrder(objects, order) && i <= j < |order| && Primary(order[j]) == order[i]
    ensures ReadAt(objects, order, i) == objects[order[i]].data
  {
    forall k: nat | k < i ensures Primary(order[k]) != order[i] {
      if Primary(order[k]) == Primary(order[j]) {
        PrimaryIsInjective(order[k], order[j]);
      }
    }
    ReadsOwn(objects, order, i);
  }

  /** A target's object ends with what its copy's namesake read, if there is one. */
  lemma TargetObjectEnds(objects: Objects, order: seq<Ref>, i: nat)
    requires IsOrder(objects, order) && i < |order|
    ensures order[i] in Copied(objects, order)
    ensures forall j: nat | j < |order| && Primary(order[j]) == order[i] ::
              Copied(objects, order)[order[i]].data == ReadAt(objects, order, j)
    ensures (forall j: nat | j < |order| :: Primary(order[j]) != order[i]) ==>
              Copied(objects, order)[order[i]] == objects[order[i]]
  {
    CopiedGrows(objects, order, order[i]);
    forall j: nat | j < |order| && Primary(order[j]) == order[i]
      ensures Copied(objects, order)[order[i]].data == ReadAt(objects, order, j)
    {
      CopyIsKept(objects, order, j);
    }
    if forall j: nat | j < |order| :: Primary(order[j]) != order[i] {
      Untouched(objects, order, order[i]);
    }
  }
}
