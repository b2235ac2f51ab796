/** The per-video error rate of `format_lines`: with k the number of true
    labels (at least one), the share of the k best-scored classes that are
    not true labels. Scores are exact reals, so `1 - hits / k` is computed
    without rounding. */
module ErrorRate {

  import opened Errors
  import opened TopK

  /** The classes a label row marks as true. */
  function TrueLabels(labels: seq<bool>): set<nat>
  {
    set i: nat | i < |labels| && labels[i]
  }

  /** The sum of a 0/1 label row, taken position by position. */
  function CountTrue(labels: seq<bool>): (c: nat)
    ensures c == |TrueLabels(labels)|
    ensures c <= |labels|
  {
    if |labels| == 0 then 0
    else
      var n := |labels|;
      var prefix := labels[..n - 1];
      assert TrueLabels(labels) == TrueLabels(prefix) + (if labels[n - 1] then {n - 1} else {});
      assert n - 1 !in TrueLabels(prefix);
      CountTrue(prefix) + (if labels[n - 1] then 1 else 0)
  }

  /** How many classes are selected for a video: its number of true labels,
      but never fewer than one. */
  function TopKSize(labels: seq<bool>): (k: nat)
    ensures k >= 1
    ensures |TrueLabels(labels)| >= 1 ==> k == |TrueLabels(labels)|
    ensures |TrueLabels(labels)| == 0 ==> k == 1
    ensures |labels| >= 1 ==> k <= |labels|
  {
    var c := CountTrue(labels);
    if c > 1 then c else 1
  }

  /** The selected classes that are true labels. */
  function Hits(labels: seq<bool>, sel: set<nat>): nat
  {
    |sel * TrueLabels(labels)|
  }

  /** The set facts behind the error rate: hits never exceed the selection,
      reach it exactly when every selected class is a true label, and vanish
      exactly when none is. */
  lemma HitsBounds(labels: seq<bool>, sel: set<nat>)
    ensures Hits(labels, sel) <= |sel|
    ensures Hits(labels, sel) == |sel| <==> sel <= TrueLabels(labels)
    ensures Hits(labels, sel) == 0 <==> sel !! TrueLabels(labels)
  {
    var t := TrueLabels(labels);
    SubsetSize(sel * t, sel);
    if Hits(labels, sel) == |sel| {
      SubsetOfSameSize(sel * t, sel);
    }
    if sel <= t {
      assert sel * t == sel;
    }
    if sel !! t {
      assert sel * t == {};
    } else {
      var x :| x in sel && x in t;
      assert x in sel * t;
      assert sel * t != {};
    }
  }

  /** With at least one true label, a k-selection inside the true labels is
      the whole label set. */
  lemma AllHitMeansExact(labels: seq<bool>, sel: set<nat>)
    requires |sel| == TopKSize(labels)
    ensures |TrueLabels(labels)| >= 1 ==> (sel <= TrueLabels(labels) <==> sel == TrueLabels(labels))
  {
    if |TrueLabels(labels)| >= 1 && sel <= TrueLabels(labels) {
      SubsetOfSameSize(sel, TrueLabels(labels));
    }
  }

  /** For 0 <= h <= k and k >= 1 the ratio h / k lies in [0, 1], is 1 only
      for h == k and 0 only for h == 0. */
  lemma RatioBounds(h: nat, k: nat)
    requires 1 <= k && h <= k
    ensures 0.0 <= (h as real) / (k as real) <= 1.0
    ensures (h as real) / (k as real) == 1.0 <==> h == k
    ensures (h as real) / (k as real) == 0.0 <==> h == 0
  {
    var q := (h as real) / (k as real);
    assert q * (k as real) == h as real;
  }

  /** The value printed for one video given the classes its scores
      selected: 1 - hits / k. */
  function RowErrorRate(labels: seq<bool>, sel: set<nat>): (e: real)
    requires |sel| == TopKSize(labels)
    ensures 0.0 <= e <= 1.0
    ensures e == 0.0 <==> sel <= TrueLabels(labels)
    ensures e == 1.0 <==> sel !! TrueLabels(labels)
    ensures |TrueLabels(labels)| >= 1 ==> (e == 0.0 <==> sel == TrueLabels(labels))
  {
    var k := TopKSize(labels);
    var hits := Hits(labels, sel);
    HitsBounds(labels, sel);
    RatioBounds(hits, k);
    AllHitMeansExact(labels, sel);
    1.0 - (hits as real) / (k as real)
  }

  /** No k-subset of a row's classes exists when k exceeds the row width. */
  lemma NoTopKBeyondRow(scores: seq<real>, k: nat)
    requires k > |scores|
    ensures forall sel :: !IsTopK(scores, k, sel)
  {
    forall sel | IsTopK(scores, k, sel)
      ensures false
    {
      TopKFitsRow(scores, k, sel);
    }
  }

  /** The error rate of one row of a batch. The partition call fails
      exactly when the row has fewer classes than k, which for equally wide
      label and score rows means an empty row; otherwise the result is the
      error rate of some valid top-k selection. */
  function ScoreRow(scores: seq<real>, labels: seq<bool>): (r: Result<real>)
    requires |scores| == |labels|
    ensures r.Err? <==> |scores| == 0
    ensures r.Err? ==> r.error == KthOutOfBounds
    ensures r.Err? ==> forall sel :: !IsTopK(scores, TopKSize(labels), sel)
    ensures r.Ok? ==> 0.0 <= r.value <= 1.0
    ensures r.Ok? && |TrueLabels(labels)| == 0 ==> r.value == 1.0
  {
    var k := TopKSize(labels);
    if k > |scores| then
      NoTopKBeyondRow(scores, k);
      Err(KthOutOfBounds)
    else
      Ok(RowErrorRate(labels, SelectTopK(scores, k)))
  }

  /** The rate a scorable row gets is the rate of some valid top-k
      selection of its scores, whichever way ties were broken. */
  lemma ScoreRowSelects(scores: seq<real>, labels: seq<bool>)
    requires |scores| == |labels| && ScoreRow(scores, labels).Ok?
    ensures exists sel :: IsTopK(scores, TopKSize(labels), sel) && ScoreRow(scores, labels).value == RowErrorRate(labels, sel)
  {
    SelectTopKIsTopK(scores, TopKSize(labels));
  }

  /** When every true label outscores every other class, whichever valid
      top-k selection is made, the error rate is 0. */
  lemma PerfectRankingHasNoError(scores: seq<real>, labels: seq<bool>, sel: set<nat>)
    requires |scores| == |labels|
    requires |TrueLabels(labels)| >= 1
    requires forall t, u :: t in TrueLabels(labels) && 0 <= u < |scores| && u !in TrueLabels(labels) ==> scores[u] < scores[t]
    requires IsTopK(scores, TopKSize(labels), sel)
    ensures RowErrorRate(labels, sel) == 0.0
  {
    var t := TrueLabels(labels);
    forall x | x in t
      ensures x in sel
    {
      if x !in sel {
        OutsideWitness(sel, t, x);
        assert false;
      }
    }
    SubsetOfSameSize(t, sel);
  }

  /** When at least k classes that are not true labels each outscore every
      true label, no valid top-k selection picks a true label and the error
      rate is 1. */
  lemma BuriedLabelsAllMissed(scores: seq<real>, labels: seq<bool>, sel: set<nat>, above: set<nat>)
    requires |scores| == |labels|
    requires IsTopK(scores, TopKSize(labels), sel)
    requires |above| >= TopKSize(labels)
    requires forall h :: h in above ==> h < |scores|
    requires forall t, h :: t in TrueLabels(labels) && h in above ==> scores[t] < scores[h]
    ensures RowErrorRate(labels, sel) == 1.0
  {
    forall x | x in TrueLabels(labels)
      ensures x !in sel
    {
      if x in sel {
        assert above <= sel;
        assert x !in above;
        SubsetSize(above + {x}, sel);
        assert false;
      }
    }
  }
}
