/** Selection of the k highest-scoring classes of one prediction row.

    The driver uses numpy's `argpartition(row, -k)[-k:]`, which returns k
    distinct class indices whose scores are at least those of every other
    class; the order among equal scores is whatever the partition algorithm
    produces. `IsTopK` states exactly that and nothing more, and
    `SelectTopK` is one deterministic selection meeting it. */
module TopK {

  import opened Errors

  /** The class indices of a row of width n: 0, 1, ..., n - 1. */
  function Indices(n: nat): (r: set<nat>)
    ensures forall i: nat :: i in r <==> i < n
    ensures |r| == n
  {
    if n == 0 then {} else Indices(n - 1) + {n - 1}
  }

  /** A subset as large as its superset is the superset. */
  lemma SubsetOfSameSize<T>(a: set<T>, b: set<T>)
    requires a <= b && |b| <= |a|
    ensures a == b
  {
    assert b * a == a;
    assert |b - a| == 0;
    assert b - a == {};
  }

  /** Some element of a set at least as large as b lies outside b, once an
      element of b is known to lie outside it. */
  lemma OutsideWitness<T>(a: set<T>, b: set<T>, x: T)
    requires |b| <= |a| && x in b && x !in a
    ensures exists y :: y in a && y !in b
  {
    assert b - a == (b - a - {x}) + {x};
    assert |b - a| >= 1;
    assert |a - b| == |a| - |a * b|;
    assert |b - a| == |b| - |b * a|;
    assert a * b == b * a;
    var y :| y in a - b;
  }

  /** A subset is never larger than its superset. */
  lemma SubsetSize<T>(a: set<T>, b: set<T>)
    requires a <= b
    ensures |a| <= |b|
  {
    assert b * a == a;
    assert |b - a| == |b| - |b * a|;
  }

  /** `sel` is a valid answer of `argpartition(scores, -k)[-k:]`: k distinct
      in-range class indices, none of them outscored by a class left out. */
  predicate IsTopK(scores: seq<real>, k: nat, sel: set<nat>)
  {
    && |sel| == k
    && (forall i :: i in sel ==> i < |scores|)
    && (forall i, j :: i in sel && 0 <= j < |scores| && j !in sel ==> scores[j] <= scores[i])
  }

  /** A top-k selection exists only when the row has at least k classes;
      for larger k the partition call has no valid answer. */
  lemma TopKFitsRow(scores: seq<real>, k: nat, sel: set<nat>)
    requires IsTopK(scores, k, sel)
    ensures k <= |scores|
  {
    assert sel <= Indices(|scores|);
    SubsetSize(sel, Indices(|scores|));
  }

  /** A highest-scoring class among the indices lo .. |scores| - 1 that are
      not in `taken`; the lowest such index wins a tie. */
  function ArgMaxOutside(scores: seq<real>, taken: set<nat>, lo: nat): (r: Option<nat>)
    requires lo <= |scores|
    ensures r.None? <==> forall j: nat :: lo <= j < |scores| ==> j in taken
    ensures r.Some? ==> lo <= r.value < |scores| && r.value !in taken
    ensures r.Some? ==> forall j: nat :: lo <= j < |scores| && j !in taken ==> scores[j] <= scores[r.value]
    decreases |scores| - lo
  {
    if lo == |scores| then None
    else
      var rest := ArgMaxOutside(scores, taken, lo + 1);
      if lo in taken then rest
      else if rest.Some? && scores[lo] < scores[rest.value] then rest
      else Some(lo)
  }

  /** Fewer than n indices below n leave some index below n out. */
  lemma SomeIndexLeftOut(n: nat, taken: set<nat>)
    requires |taken| < n
    ensures exists j: nat :: j < n && j !in taken
  {
    if forall j: nat :: j < n ==> j in taken {
      assert Indices(n) <= taken;
      SubsetSize(Indices(n), taken);
    }
  }

  /** One deterministic top-k selection: grow the top-(k-1) selection by a
      best class not yet chosen. `SelectTopKIsTopK` shows it is valid. */
  function SelectTopK(scores: seq<real>, k: nat): (sel: set<nat>)
    requires k <= |scores|
    ensures |sel| == k
    ensures forall i :: i in sel ==> i < |scores|
    decreases k
  {
    if k == 0 then {}
    else
      var prev := SelectTopK(scores, k - 1);
      SomeIndexLeftOut(|scores|, prev);
      var best := ArgMaxOutside(scores, prev, 0);
      prev + {best.value}
  }

  /** The deterministic selection is a valid answer of the partition call. */
  lemma {:induction false} SelectTopKIsTopK(scores: seq<real>, k: nat)
    requires k <= |scores|
    ensures IsTopK(scores, k, SelectTopK(scores, k))
    decreases k
  {
    if k > 0 {
      SelectTopKIsTopK(scores, k - 1);
      var prev := SelectTopK(scores, k - 1);
      SomeIndexLeftOut(|scores|, prev);
      var best := ArgMaxOutside(scores, prev, 0);
      assert SelectTopK(scores, k) == prev + {best.value};
    }
  }

  /** A class chosen by one valid selection and not by another is matched,
      score for score, by a class the second chose and the first did not. */
  lemma ExchangeOnTie(scores: seq<real>, k: nat, a: set<nat>, b: set<nat>, x: nat)
    requires IsTopK(scores, k, a) && IsTopK(scores, k, b)
    requires x in a && x !in b
    ensures exists y :: y in b && y !in a && scores[y] == scores[x]
  {
    OutsideWitness(b, a, x);
    var y :| y in b && y !in a;
    assert scores[x] <= scores[y];
    assert scores[y] <= scores[x];
  }

  /** Ties are the only freedom: when no two classes score the same, every
      valid top-k selection is the same set. */
  lemma TopKUnique(scores: seq<real>, k: nat, a: set<nat>, b: set<nat>)
    requires forall i, j :: 0 <= i < j < |scores| ==> scores[i] != scores[j]
    requires IsTopK(scores, k, a) && IsTopK(scores, k, b)
    ensures a == b
  {
    forall x | x in a
      ensures x in b
    {
      if x !in b {
        ExchangeOnTie(scores, k, a, b, x);
        assert false;
      }
    }
    SubsetOfSameSize(a, b);
  }
}
