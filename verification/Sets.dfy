/** Cardinality facts about finite sets. */
module Sets {

  lemma {:induction false} SubsetIsNoLarger<T>(a: set<T>, b: set<T>)
    requires a <= b
    ensures |a| <= |b|
    decreases a
  {
    if x :| x in a {
      SubsetIsNoLarger(a - {x}, b - {x});
    }
  }

  function Of(cs: seq<nat>): set<nat> { set c | c in cs }

  ghost predicate Distinct(cs: seq<nat>) {
    forall i, j :: 0 <= i < j < |cs| ==> cs[i] != cs[j]
  }

  lemma {:induction false} CountDistinct(cs: seq<nat>)
    requires Distinct(cs)
    ensures |Of(cs)| == |cs|
  {
    if cs != [] {
      var p, c := cs[..|cs| - 1], cs[|cs| - 1];
      CountDistinct(p);
      assert Of(cs) == Of(p) + {c} && c !in Of(p);
    }
  }
}
