/** Facts about finite sets and maps that several modules need. */
module Finite {
  lemma AnElement<T>(some: set<T>) returns (x: T)
    requires some != {}
    ensures x in some
  {
    x :| x in some;
  }

  lemma {:induction false} SubsetSize<T>(a: set<T>, b: set<T>)
    requires a <= b
    ensures |a| <= |b|
  {
    if a != {} {
      var x := AnElement(a);
      SubsetSize(a - {x}, b - {x});
    }
  }

  ghost function AnyOf<T>(some: set<T>): (x: T)
    requires some != {}
    ensures x in some
  {
    var x :| x in some;
    x
  }

  /** A key of the greatest value. */
  lemma {:induction false} Greatest<T>(rank: map<T, nat>) returns (m: T)
    requires rank != map[]
    ensures m in rank && forall p :: p in rank ==> rank[p] <= rank[m]
  {
    m := AnElement(rank.Keys);
    var rest := rank - {m};
    assert forall p :: p in rank ==> p == m || p in rest;
    if rest != map[] {
      var n := Greatest(rest);
      if rank[m] < rank[n] {
        m := n;
      }
    }
  }

  /** A numbering without ties that respects a ranking with ties. */
  lemma {:induction false} Linearize<T>(rank: map<T, nat>) returns (t: map<T, nat>)
    ensures t.Keys == rank.Keys
    ensures forall p :: p in t ==> t[p] < |t|
    ensures forall p, q :: p in t && q in t && p != q ==> t[p] != t[q]
    ensures forall p, q :: p in t && q in t && rank[p] < rank[q] ==> t[p] < t[q]
    decreases |rank|
  {
    if rank == map[] {
      t := map[];
    } else {
      var m := Greatest(rank);
      var rest := rank - {m};
      var t' := Linearize(rest);
      assert t'.Keys == rank.Keys - {m};
      t := t'[m := |t'|];
      assert t.Keys == t'.Keys + {m} && |t| == |t.Keys|;
    }
  }
}
