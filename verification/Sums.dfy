/** Sums of the values of a finite map, as SQL's SUM computes them. */
module Sums {
  import opened Schema

  ghost function Sum(w: map<Id, int>): int
    decreases |w|
  {
    if w == map[] then 0 else
      var k :| k in w;
      w[k] + Sum(w - {k})
  }

  lemma {:induction false} SumSplit(w: map<Id, int>, k: Id)
    requires k in w
    ensures Sum(w) == w[k] + Sum(w - {k})
    decreases |w|
  {
    var j :| j in w && Sum(w) == w[j] + Sum(w - {j});
    if j != k {
      SumSplit(w - {j}, k);
      SumSplit(w - {k}, j);
      assert w - {j} - {k} == w - {k} - {j};
    }
  }

  lemma SumAdded(w: map<Id, int>, k: Id, v: int)
    requires k !in w
    ensures Sum(w[k := v]) == Sum(w) + v
  {
    SumSplit(w[k := v], k);
    assert w[k := v] - {k} == w;
  }

  lemma SumChanged(w: map<Id, int>, k: Id, v: int)
    requires k in w
    ensures Sum(w[k := v]) == Sum(w) - w[k] + v
  {
    SumSplit(w, k);
    SumSplit(w[k := v], k);
    assert w[k := v] - {k} == w - {k};
  }

  /** Dropping entries that are not negative cannot raise the sum. */
  lemma {:induction false} SumRestricted(w: map<Id, int>, v: map<Id, int>)
    requires v.Keys <= w.Keys && forall k | k in v :: v[k] == w[k]
    requires forall k | k in w :: 0 <= w[k]
    ensures Sum(v) <= Sum(w)
    decreases |w|
  {
    if w == map[] {
      assert v == map[];
    } else {
      var k :| k in w;
      SumSplit(w, k);
      if k in v {
        SumSplit(v, k);
        SumRestricted(w - {k}, v - {k});
      } else {
        SumRestricted(w - {k}, v);
      }
    }
  }

  /** Sums add up entry by entry. */
  lemma {:induction false} SumPointwise(u: map<Id, int>, v: map<Id, int>, w: map<Id, int>)
    requires u.Keys == v.Keys == w.Keys && forall k | k in u :: u[k] == v[k] + w[k]
    ensures Sum(u) == Sum(v) + Sum(w)
    decreases |u|
  {
    if u != map[] {
      var k :| k in u;
      SumSplit(u, k);
      SumSplit(v, k);
      SumSplit(w, k);
      SumPointwise(u - {k}, v - {k}, w - {k});
    } else {
      assert v == map[] && w == map[];
    }
  }

  lemma {:induction false} SumNonNegative(w: map<Id, int>)
    requires forall k | k in w :: 0 <= w[k]
    ensures 0 <= Sum(w)
  {
    SumRestricted(w, map[]);
  }

  lemma {:induction false} SumZero(w: map<Id, int>)
    requires forall k | k in w :: w[k] == 0
    ensures Sum(w) == 0
    decreases |w|
  {
    if w != map[] {
      var k :| k in w;
      SumSplit(w, k);
      SumZero(w - {k});
    }
  }
}
