// Labels and annotations that belong to other controllers (pkg/router/util.go).

module Metadata {
  const TOOLKIT := "toolkit.fluxcd.io"

  predicate Contains(s: string, part: string) {
    exists i | 0 <= i <= |s| :: part <= s[i..]
  }

  /** What is left without the marks of the toolkit. */
  function Filtered<V>(meta: map<string, V>): map<string, V> {
    map k <- meta | !Contains(k, TOOLKIT) :: meta[k]
  }

  method FilterMetadata<V>(meta: map<string, V>) returns (kept: map<string, V>)
    ensures kept == Filtered(meta)
  {
    kept := map[];
    var todo := meta.Keys;
    while todo != {}
      invariant todo <= meta.Keys
      invariant forall k :: k in kept <==> k in meta.Keys - todo && !Contains(k, TOOLKIT)
      invariant forall k <- kept :: kept[k] == meta[k]
      decreases |todo|
    {
      var k :| k in todo;
      todo := todo - {k};
      if !Contains(k, TOOLKIT) {
        kept := kept[k := meta[k]];
      }
    }
  }
}
