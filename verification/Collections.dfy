/** What the models need to know about finite sets and lists. */
module Collections {

  /** Some member of a nonempty set. */
  ghost function Pick<T>(from: set<T>): (x: T)
    requires from != {}
    ensures x in from
  {
    var x :| x in from;
    x
  }

  lemma SubsetSize<T>(a: set<T>, b: set<T>)
    requires a <= b
    ensures |a| <= |b|
  {
    assert b == a + (b - a);
  }

  /** No element occurs twice. */
  predicate Distinct<T(==)>(list: seq<T>) {
    forall i, j :: 0 <= i < j < |list| ==> list[i] != list[j]
  }
}
