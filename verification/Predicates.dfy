// Lists of route predicates written as text, joined with "&&" (strings.Split, TrimSpace and
// Join as used by pkg/router/skipper.go).

module Predicates {
  const SEPARATOR := "&&"
  const GLUE := " && "

  /** The characters TrimSpace cuts off. */
  predicate IsSpace(c: char) {
    || c == ' ' || '\U{9}' <= c <= '\U{D}' || c == '\U{85}' || c == '\U{A0}' || c == '\U{1680}'
    || '\U{2000}' <= c <= '\U{200A}' || c == '\U{2028}' || c == '\U{2029}' || c == '\U{202F}'
    || c == '\U{205F}' || c == '\U{3000}'
  }

  function TrimLeft(s: string): string {
    if s != "" && IsSpace(s[0]) then TrimLeft(s[1..]) else s
  }

  function TrimRight(s: string): string {
    if s != "" && IsSpace(s[|s| - 1]) then TrimRight(s[..|s| - 1]) else s
  }

  function Trim(s: string): string {
    TrimRight(TrimLeft(s))
  }

  /** No separator anywhere inside. */
  predicate Whole(s: string) {
    forall i :: 0 <= i < |s| - 1 ==> !(s[i] == '&' && s[i + 1] == '&')
  }

  predicate StartsWithSeparator(s: string) {
    |s| >= 2 && s[0] == '&' && s[1] == '&'
  }

  /** Cuts at the separators, from left to right. */
  function Split(s: string): (parts: seq<string>)
    ensures parts != [] && parts[0] <= s
  {
    if s == "" then [""]
    else if StartsWithSeparator(s) then [""] + Split(s[2..])
    else
      var rest := Split(s[1..]);
      [[s[0]] + rest[0]] + rest[1..]
  }

  function Join(ps: seq<string>): string {
    if ps == [] then ""
    else if |ps| == 1 then ps[0]
    else ps[0] + GLUE + Join(ps[1..])
  }

  function TrimAll(ps: seq<string>): seq<string> {
    if ps == [] then [] else [Trim(ps[0])] + TrimAll(ps[1..])
  }

  /** The parts between separators, trimmed. */
  function Parts(s: string): seq<string> {
    TrimAll(Split(s))
  }

  // ---------------------------------------------------------------------------
  // Trimming
  // ---------------------------------------------------------------------------

  lemma WholeSlice(s: string, i: nat, j: nat)
    requires Whole(s) && i <= j <= |s|
    ensures Whole(s[i..j])
  {
    forall k | 0 <= k < j - i - 1
      ensures !(s[i..j][k] == '&' && s[i..j][k + 1] == '&')
    {
      assert s[i..j][k] == s[i + k] && s[i..j][k + 1] == s[i + k + 1];
    }
  }

  lemma {:induction false} TrimLeftKeepsWhole(s: string)
    requires Whole(s)
    ensures Whole(TrimLeft(s))
  {
    if s != "" && IsSpace(s[0]) {
      WholeSlice(s, 1, |s|);
      TrimLeftKeepsWhole(s[1..]);
    }
  }

  lemma {:induction false} TrimRightKeepsWhole(s: string)
    requires Whole(s)
    ensures Whole(TrimRight(s))
  {
    if s != "" && IsSpace(s[|s| - 1]) {
      WholeSlice(s, 0, |s| - 1);
      TrimRightKeepsWhole(s[..|s| - 1]);
    }
  }

  lemma TrimKeepsWhole(s: string)
    requires Whole(s)
    ensures Whole(Trim(s))
  {
    TrimLeftKeepsWhole(s);
    TrimRightKeepsWhole(TrimLeft(s));
  }

  lemma {:induction false} TrimLeftMeans(s: string)
    ensures TrimLeft(s) == "" || !IsSpace(TrimLeft(s)[0])
    ensures |TrimLeft(s)| <= |s| && TrimLeft(s) == s[|s| - |TrimLeft(s)|..]
  {
    if s != "" && IsSpace(s[0]) {
      TrimLeftMeans(s[1..]);
    }
  }

  lemma {:induction false} TrimRightMeans(s: string)
    ensures TrimRight(s) == "" || !IsSpace(TrimRight(s)[|TrimRight(s)| - 1])
    ensures TrimRight(s) <= s
  {
    if s != "" && IsSpace(s[|s| - 1]) {
      TrimRightMeans(s[..|s| - 1]);
    }
  }

  lemma TrimIsIdempotent(s: string)
    ensures Trim(Trim(s)) == Trim(s)
  {
    var l := TrimLeft(s);
    TrimLeftMeans(s);
    TrimRightMeans(l);
    if Trim(s) != "" {
      assert Trim(s)[0] == l[0];
    }
  }

  lemma TrimOfLeadingSpace(s: string)
    ensures Trim(" " + s) == Trim(s)
  {
    assert (" " + s)[1..] == s;
  }

  lemma {:induction false} TrimLeftOfTrailingSpace(s: string)
    ensures TrimLeft(s + " ") == if TrimLeft(s) == "" then "" else TrimLeft(s) + " "
  {
    var t := s + " ";
    assert t[0] == if s == "" then ' ' else s[0];
    if s == "" {
      assert t[1..] == "";
    } else if IsSpace(s[0]) {
      assert t[1..] == s[1..] + " ";
      TrimLeftOfTrailingSpace(s[1..]);
    }
  }

  lemma TrimOfTrailingSpace(s: string)
    ensures Trim(s + " ") == Trim(s)
  {
    TrimLeftOfTrailingSpace(s);
    var l := TrimLeft(s);
    assert (l + " ")[..|l|] == l;
  }

  // ---------------------------------------------------------------------------
  // Splitting what was joined
  // ---------------------------------------------------------------------------

  lemma WholePrepended(c: char, s: string)
    requires Whole(s) && !(s != "" && c == '&' && s[0] == '&')
    ensures Whole([c] + s)
  {
    var t := [c] + s;
    forall k | 0 <= k < |t| - 1
      ensures !(t[k] == '&' && t[k + 1] == '&')
    {
      if k > 0 {
        assert t[k] == s[k - 1] && t[k + 1] == s[k - 1 + 1];
      }
    }
  }

  lemma {:induction false} PartsAreWhole(s: string)
    ensures forall p <- Split(s) :: Whole(p)
  {
    if s != "" {
      if StartsWithSeparator(s) {
        PartsAreWhole(s[2..]);
      } else {
        PartsAreWhole(s[1..]);
        var first := Split(s[1..])[0];
        assert first in Split(s[1..]);
        assert first != "" ==> first[0] == s[1..][0];
        WholePrepended(s[0], first);
        assert forall p <- Split(s) :: p == [s[0]] + first || p in Split(s[1..]);
      }
    }
  }

  /** A separator cuts, unless the text before it ends in half a separator. */
  lemma {:induction false} SplitAtSeparator(p: string, t: string)
    requires Whole(p) && (p != "" ==> p[|p| - 1] != '&')
    ensures Split(p + SEPARATOR + t) == [p] + Split(t)
  {
    var s := p + SEPARATOR + t;
    if p == "" {
      assert s[2..] == t;
    } else {
      assert s[1..] == p[1..] + SEPARATOR + t;
      assert s[0] == p[0] && (|p| >= 2 ==> s[1] == p[1]);
      assert !StartsWithSeparator(s);
      SplitAtSeparator(p[1..], t);
      assert [p[0]] + p[1..] == p;
    }
  }

  lemma SplitOfLeadingSpace(t: string)
    ensures Split(" " + t) == [" " + Split(t)[0]] + Split(t)[1..]
  {
    assert (" " + t)[1..] == t;
    assert (" " + t)[0] == ' ';
  }

  lemma {:induction false} SplitOfWhole(p: string)
    requires Whole(p)
    ensures Split(p) == [p]
  {
    if p != "" {
      assert !StartsWithSeparator(p);
      WholeSlice(p, 1, |p|);
      SplitOfWhole(p[1..]);
      assert [p[0]] + p[1..] == p;
    }
  }

  /** A part as it comes out of splitting and trimming. */
  predicate Clean(p: string) {
    Whole(p) && Trim(p) == p
  }

  lemma TrimAllOfCons(p: string, ps: seq<string>)
    ensures TrimAll([p] + ps) == [Trim(p)] + TrimAll(ps)
  {
    assert ([p] + ps)[1..] == ps;
  }

  lemma PartsOfLeadingSpace(t: string)
    ensures Parts(" " + t) == Parts(t)
  {
    var ps := Split(t);
    SplitOfLeadingSpace(t);
    TrimOfLeadingSpace(ps[0]);
    TrimAllOfCons(" " + ps[0], ps[1..]);
    TrimAllOfCons(ps[0], ps[1..]);
    assert [ps[0]] + ps[1..] == ps;
  }

  lemma WholeWithSpace(p: string)
    requires Whole(p)
    ensures Whole(p + " ")
  {
    var q := p + " ";
    forall k | 0 <= k < |q| - 1
      ensures !(q[k] == '&' && q[k + 1] == '&')
    {
      if k < |p| - 1 {
        assert q[k] == p[k] && q[k + 1] == p[k + 1];
      }
    }
  }

  lemma GlueIsSpaced(p: string, t: string)
    ensures p + GLUE + t == (p + " ") + SEPARATOR + (" " + t)
  {
    assert GLUE == " " + SEPARATOR + " ";
  }

  lemma PartsAtSeparator(q: string, u: string)
    requires Whole(q) && q != "" && q[|q| - 1] != '&'
    ensures Parts(q + SEPARATOR + u) == [Trim(q)] + Parts(u)
  {
    SplitAtSeparator(q, u);
    TrimAllOfCons(q, Split(u));
  }

  /** The first of two joined texts comes off trimmed. */
  lemma PartsOfGlued(p: string, t: string)
    requires Whole(p)
    ensures Parts(p + GLUE + t) == [Trim(p)] + Parts(t)
  {
    WholeWithSpace(p);
    GlueIsSpaced(p, t);
    PartsAtSeparator(p + " ", " " + t);
    TrimOfTrailingSpace(p);
    PartsOfLeadingSpace(t);
  }

  lemma JoinOfMore(p: string, rest: seq<string>)
    requires rest != []
    ensures Join([p] + rest) == p + GLUE + Join(rest)
  {
    assert ([p] + rest)[1..] == rest;
  }

  lemma PartsOfOne(p: string)
    requires Clean(p)
    ensures Parts(p) == [p]
  {
    SplitOfWhole(p);
    TrimAllOfCons(p, []);
    assert Split(p) == [p] + [];
  }

  /** Splitting and trimming undoes joining. */
  lemma {:induction false} PartsOfJoin(ps: seq<string>)
    requires ps != [] && forall p <- ps :: Clean(p)
    ensures Parts(Join(ps)) == ps
  {
    var p, rest := ps[0], ps[1..];
    assert p in ps && [p] + rest == ps;
    if rest == [] {
      PartsOfOne(p);
    } else {
      assert forall r <- rest :: r in ps;
      PartsOfJoin(rest);
      JoinOfMore(p, rest);
      PartsOfGlued(p, Join(rest));
    }
  }
}
