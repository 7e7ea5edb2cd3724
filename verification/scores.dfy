/** Per-class confusion counts and the zero-division-safe precision, recall
    and F1 computed from them. */
module Scores {
  import opened Labels

  /** The number of positions i at which "truth[i] is c" equals `inTruth` and
      "pred[i] is c" equals `inPred`: a sum over the zipped pair sequence. */
  function CountPairs<T(==)>(t: seq<NLabel<T>>, p: seq<NLabel<T>>, c: NLabel<T>,
                             inTruth: bool, inPred: bool): (k: nat)
    requires |t| == |p|
    ensures k == |set i | 0 <= i < |t| && (t[i] == c) == inTruth && (p[i] == c) == inPred|
    decreases |t|
  {
    if |t| == 0 then 0
    else
      var n := |t| - 1;
      var hit := (t[n] == c) == inTruth && (p[n] == c) == inPred;
      var front := set i | 0 <= i < n && (t[..n][i] == c) == inTruth && (p[..n][i] == c) == inPred;
      assert (set i | 0 <= i < |t| && (t[i] == c) == inTruth && (p[i] == c) == inPred)
             == front + (if hit then {n} else {});
      CountPairs(t[..n], p[..n], c, inTruth, inPred) + (if hit then 1 else 0)
  }

  /** tp: the number of positions where the truth is c and the prediction
      is c. */
  function TruePositives<T(==)>(t: seq<NLabel<T>>, p: seq<NLabel<T>>, c: NLabel<T>): (tp: nat)
    requires |t| == |p|
    ensures tp == |set i | 0 <= i < |t| && t[i] == c && p[i] == c|
  {
    assert (set i | 0 <= i < |t| && (t[i] == c) == true && (p[i] == c) == true)
           == (set i | 0 <= i < |t| && t[i] == c && p[i] == c);
    CountPairs(t, p, c, true, true)
  }

  /** fp: the number of positions where the truth is not c but the
      prediction is c. */
  function FalsePositives<T(==)>(t: seq<NLabel<T>>, p: seq<NLabel<T>>, c: NLabel<T>): (fp: nat)
    requires |t| == |p|
    ensures fp == |set i | 0 <= i < |t| && t[i] != c && p[i] == c|
  {
    assert (set i | 0 <= i < |t| && (t[i] == c) == false && (p[i] == c) == true)
           == (set i | 0 <= i < |t| && t[i] != c && p[i] == c);
    CountPairs(t, p, c, false, true)
  }

  /** fn: the number of positions where the truth is c but the prediction
      is not c. */
  function FalseNegatives<T(==)>(t: seq<NLabel<T>>, p: seq<NLabel<T>>, c: NLabel<T>): (fn: nat)
    requires |t| == |p|
    ensures fn == |set i | 0 <= i < |t| && t[i] == c && p[i] != c|
  {
    assert (set i | 0 <= i < |t| && (t[i] == c) == true && (p[i] == c) == false)
           == (set i | 0 <= i < |t| && t[i] == c && p[i] != c);
    CountPairs(t, p, c, true, false)
  }

  /** tp + fn counts the occurrences of c in the truth, and tp + fp its
      occurrences in the predictions. */
  lemma CountsMatchOccurrences<T>(t: seq<NLabel<T>>, p: seq<NLabel<T>>, c: NLabel<T>)
    requires |t| == |p|
    ensures TruePositives(t, p, c) + FalseNegatives(t, p, c) == multiset(t)[c]
    ensures TruePositives(t, p, c) + FalsePositives(t, p, c) == multiset(p)[c]
  {
    TruthOccurrences(t, p, c);
    PredictionOccurrences(t, p, c);
  }

  /** The positions where the truth is c split by whether the prediction
      is c. */
  lemma {:induction false} TruthOccurrences<T>(t: seq<NLabel<T>>, p: seq<NLabel<T>>, c: NLabel<T>)
    requires |t| == |p|
    ensures CountPairs(t, p, c, true, true) + CountPairs(t, p, c, true, false) == multiset(t)[c]
    decreases |t|
  {
    if |t| > 0 {
      var n := |t| - 1;
      TruthOccurrences(t[..n], p[..n], c);
      assert t == t[..n] + [t[n]];
    }
  }

  /** The positions where the prediction is c split by whether the truth
      is c. */
  lemma {:induction false} PredictionOccurrences<T>(t: seq<NLabel<T>>, p: seq<NLabel<T>>, c: NLabel<T>)
    requires |t| == |p|
    ensures CountPairs(t, p, c, true, true) + CountPairs(t, p, c, false, true) == multiset(p)[c]
    decreases |t|
  {
    if |t| > 0 {
      var n := |t| - 1;
      PredictionOccurrences(t[..n], p[..n], c);
      assert p == p[..n] + [p[n]];
    }
  }

  /** Python's `zip(yt, yp)` on two sequences of the same length. */
  function Zip<T>(t: seq<NLabel<T>>, p: seq<NLabel<T>>): (z: seq<(NLabel<T>, NLabel<T>)>)
    requires |t| == |p|
    ensures |z| == |t|
    ensures forall i :: 0 <= i < |t| ==> z[i] == (t[i], p[i])
  {
    seq(|t|, i requires 0 <= i < |t| => (t[i], p[i]))
  }

  /** tp is the number of (c, c) pairs in zip(yt, yp). */
  lemma {:induction false} TruePositivesArePairs<T>(t: seq<NLabel<T>>, p: seq<NLabel<T>>, c: NLabel<T>)
    requires |t| == |p|
    ensures TruePositives(t, p, c) == multiset(Zip(t, p))[(c, c)]
  {
    if |t| > 0 {
      var n := |t| - 1;
      TruePositivesArePairs(t[..n], p[..n], c);
      assert Zip(t, p) == Zip(t[..n], p[..n]) + [(t[n], p[n])];
    }
  }

  /** When the predictions equal the truth at every position, no class has a
      false positive or a false negative. */
  lemma {:induction false} IdenticalHasNoErrors<T>(t: seq<NLabel<T>>, c: NLabel<T>)
    ensures FalsePositives(t, t, c) == 0 && FalseNegatives(t, t, c) == 0
  {
    if |t| > 0 {
      IdenticalHasNoErrors(t[..|t| - 1], c);
    }
  }

  /** When no position agrees, no class has a true positive. */
  lemma {:induction false} DisagreementHasNoTruePositive<T>(t: seq<NLabel<T>>, p: seq<NLabel<T>>, c: NLabel<T>)
    requires |t| == |p|
    requires forall i :: 0 <= i < |t| ==> t[i] != p[i]
    ensures TruePositives(t, p, c) == 0
  {
    if |t| > 0 {
      var n := |t| - 1;
      assert forall i :: 0 <= i < n ==> t[..n][i] == t[i] && p[..n][i] == p[i];
      DisagreementHasNoTruePositive(t[..n], p[..n], c);
    }
  }

  /** tp / (tp + other), or 0 when that denominator is 0: precision with
      other = fp, recall with other = fn. */
  function Ratio(tp: nat, other: nat): (q: real)
    ensures 0.0 <= q <= 1.0
    ensures q == 0.0 <==> tp == 0
  {
    if tp + other == 0 then 0.0 else tp as real / (tp + other) as real
  }

  /** Per-class F1: the harmonic mean of precision and recall, or 0 when
      precision + recall is 0. */
  function F1(tp: nat, fp: nat, fn: nat): (f: real)
    ensures 0.0 <= f <= 1.0
    ensures f == 0.0 <==> tp == 0
  {
    var precision := Ratio(tp, fp);
    var recall := Ratio(tp, fn);
    if precision + recall == 0.0 then 0.0
    else
      HarmonicMeanBounds(precision, recall);
      2.0 * precision * recall / (precision + recall)
  }

  /** The harmonic mean of two numbers in (0, 1] lies in (0, 1]. */
  lemma HarmonicMeanBounds(p: real, r: real)
    requires 0.0 < p <= 1.0 && 0.0 < r <= 1.0
    ensures 0.0 < 2.0 * p * r / (p + r) <= 1.0
  {
    assert 0.0 < p * r;
    NonNegativeProduct(p, 1.0 - r);
    NonNegativeProduct(r, 1.0 - p);
    assert p * (1.0 - r) == p - p * r;
    assert r * (1.0 - p) == r - p * r;
    assert 2.0 * p * r == p * r + p * r;
    UnitQuotient(2.0 * p * r, p + r);
  }

  lemma NonNegativeProduct(a: real, b: real)
    requires 0.0 <= a && 0.0 <= b
    ensures 0.0 <= a * b
  {
  }

  /** F1 equals the closed form 2tp / (2tp + fp + fn), and is 0 exactly when
      tp is 0 (the only case the zero-division guard fires). */
  lemma F1IsDice(tp: nat, fp: nat, fn: nat)
    ensures F1(tp, fp, fn) == if tp == 0 then 0.0
                              else (2 * tp) as real / (2 * tp + fp + fn) as real
  {
    if tp > 0 {
      var a, b := (tp + fp) as real, (tp + fn) as real;
      assert Ratio(tp, fp) == tp as real / a && Ratio(tp, fn) == tp as real / b;
      HarmonicOfRatios(tp as real, a, b);
      assert a + b == (2 * tp + fp + fn) as real;
    }
  }

  /** The harmonic mean of t/a and t/b is 2t / (a + b). */
  lemma HarmonicOfRatios(t: real, a: real, b: real)
    requires 0.0 < t && 0.0 < a && 0.0 < b
    ensures t / a + t / b != 0.0
    ensures 2.0 * (t / a) * (t / b) / (t / a + t / b) == 2.0 * t / (a + b)
  {
    var p, r := t / a, t / b;
    assert p * a == t && r * b == t;
    assert (p + r) * (a * b) == t * (a + b);
    assert 2.0 * p * r * (a * b) == 2.0 * t * t;
    var q := 2.0 * t / (a + b);
    assert q * (a + b) == 2.0 * t;
    assert q * (p + r) * (a * b) == 2.0 * p * r * (a * b);
  }

  /** Every per-class F1 lies in [0, 1], is 0 exactly when tp is 0, and is
      1 exactly when there are true positives and no errors. */
  lemma F1Range(tp: nat, fp: nat, fn: nat)
    ensures 0.0 <= F1(tp, fp, fn) <= 1.0
    ensures F1(tp, fp, fn) == 0.0 <==> tp == 0
    ensures F1(tp, fp, fn) == 1.0 <==> tp > 0 && fp == 0 && fn == 0
  {
    F1IsDice(tp, fp, fn);
    if tp > 0 {
      UnitQuotient((2 * tp) as real, (2 * tp + fp + fn) as real);
    }
  }

  /** A positive quotient of a number by one at least as large is at most 1,
      and is 1 exactly when the two are equal. */
  lemma UnitQuotient(num: real, den: real)
    requires 0.0 < num <= den
    ensures 0.0 < num / den <= 1.0
    ensures num / den == 1.0 <==> num == den
  {
    assert num / den * den == num;
  }
}
