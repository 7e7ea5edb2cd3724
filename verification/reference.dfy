/** The reference metric `_macro_f1_ref`: macro-averaged F1 over the union of
    the normalised labels of both sequences, every class weighted equally. */
module Reference {
  import opened Values
  import opened Labels
  import opened Scores

  /** The class set: every distinct normalised label of either sequence. */
  function Classes<T(==)>(t: seq<NLabel<T>>, p: seq<NLabel<T>>): (cs: set<NLabel<T>>)
    ensures forall i :: 0 <= i < |t| ==> t[i] in cs
    ensures forall i :: 0 <= i < |p| ==> p[i] in cs
    ensures forall c | c in cs :: c in t || c in p
    ensures cs == {} <==> |t| == 0 && |p| == 0
  {
    var cs := (set c | c in t) + (set c | c in p);
    assert |t| > 0 ==> t[0] in cs;
    assert |p| > 0 ==> p[0] in cs;
    cs
  }

  /** The F1 of one class over the whole pair sequence. */
  function ClassF1<T(==)>(t: seq<NLabel<T>>, p: seq<NLabel<T>>, c: NLabel<T>): (f: real)
    requires |t| == |p|
    ensures 0.0 <= f <= 1.0
    ensures f == 0.0 <==> TruePositives(t, p, c) == 0
  {
    F1(TruePositives(t, p, c), FalsePositives(t, p, c), FalseNegatives(t, p, c))
  }

  /** Each class's F1, as one function of the class. */
  function ClassScores<T(==)>(t: seq<NLabel<T>>, p: seq<NLabel<T>>): (score: NLabel<T> -> real)
    requires |t| == |p|
  {
    c => ClassF1(t, p, c)
  }

  /** Every class's F1 lies in [0, 1]. */
  lemma ClassScoresInRange<T>(t: seq<NLabel<T>>, p: seq<NLabel<T>>, c: NLabel<T>)
    requires |t| == |p|
    ensures 0.0 <= ClassScores(t, p)(c) <= 1.0
  {
    F1Range(TruePositives(t, p, c), FalsePositives(t, p, c), FalseNegatives(t, p, c));
  }

  /** The sum of score(c) over a set of classes, taken in no particular
      order (see SumOverRemove and SumInAnyOrder). */
  ghost function SumOver<L>(cs: set<L>, score: L -> real): (sum: real)
    decreases cs
  {
    if cs == {} then 0.0
    else
      var c :| c in cs;
      score(c) + SumOver(cs - {c}, score)
  }

  /** Python's `sum` over a list of floats, left to right. */
  function SumSeq(s: seq<real>): (sum: real)
  {
    if |s| == 0 then 0.0 else SumSeq(s[..|s| - 1]) + s[|s| - 1]
  }

  /** A sum of values in [0, 1] lies in [0, n] for a list of n values. */
  lemma {:induction false} SumSeqBounds(s: seq<real>)
    requires forall i | 0 <= i < |s| :: 0.0 <= s[i] <= 1.0
    ensures 0.0 <= SumSeq(s) <= |s| as real
  {
    if |s| > 0 {
      var n := |s| - 1;
      assert forall i | 0 <= i < n :: s[..n][i] == s[i];
      SumSeqBounds(s[..n]);
    }
  }

  /** The unweighted mean of the per-class F1 values over the class set of
      two normalised sequences, 0 when there are no classes. */
  ghost function MeanF1<T>(t: seq<NLabel<T>>, p: seq<NLabel<T>>): (m: real)
    requires |t| == |p|
    ensures 0.0 <= m <= 1.0
  {
    var cs := Classes(t, p);
    if cs == {} then 0.0
    else
      ClassSumBounds(cs, t, p);
      MeanBounds(SumOver(cs, ClassScores(t, p)), |cs|);
      SumOver(cs, ClassScores(t, p)) / |cs| as real
  }

  /** The specification of `_macro_f1_ref`: a length error when the lengths
      differ, otherwise the macro-F1 of the normalised sequences. */
  ghost function MacroF1<T>(yTrue: seq<T>, yPred: seq<T>, isNaN: T -> bool): (r: Result<real>)
    ensures r.Raise? <==> |yTrue| != |yPred|
    ensures r.Raise? ==> r.exc == ValueError
    ensures r.Ok? ==> 0.0 <= r.value <= 1.0
  {
    if |yTrue| != |yPred| then Raise(ValueError)
    else Ok(MeanF1(NormalizeAll(yTrue, isNaN), NormalizeAll(yPred, isNaN)))
  }

  lemma MeanBounds(s: real, n: nat)
    requires 0 < n && 0.0 <= s <= n as real
    ensures 0.0 <= s / n as real <= 1.0
  {
    assert s / n as real * n as real == s;
  }

  /** Removing any one class from the sum leaves the sum of the rest: the
      sum does not depend on which class is taken first. */
  lemma {:induction false} SumOverRemove<L>(cs: set<L>, score: L -> real, c: L)
    requires c in cs
    ensures SumOver(cs, score) == score(c) + SumOver(cs - {c}, score)
    decreases cs
  {
    var d :| d in cs && SumOver(cs, score) == score(d) + SumOver(cs - {d}, score);
    if d != c {
      SumOverRemove(cs - {d}, score, c);
      SumOverRemove(cs - {c}, score, d);
      assert cs - {d} - {c} == cs - {c} - {d};
    }
  }

  /** n copies of x added up. */
  function Times(n: nat, x: real): (r: real)
    ensures x == 0.0 ==> r == 0.0
  {
    if n == 0 then 0.0 else Times(n - 1, x) + x
  }

  lemma {:induction false} TimesIsProduct(n: nat, x: real)
    ensures Times(n, x) == n as real * x
  {
    if n > 0 {
      TimesIsProduct(n - 1, x);
      assert (n - 1) as real * x + x == n as real * x;
    }
  }

  /** A sum of scores that each lie in [lo, hi] lies between |cs| copies of
      lo and |cs| copies of hi. */
  lemma {:induction false} SumOverBounds<L>(cs: set<L>, score: L -> real, lo: real, hi: real)
    requires forall c | c in cs :: lo <= score(c) <= hi
    ensures Times(|cs|, lo) <= SumOver(cs, score) <= Times(|cs|, hi)
    decreases cs
  {
    if cs != {} {
      var c :| c in cs;
      SumOverRemove(cs, score, c);
      SumOverBounds(cs - {c}, score, lo, hi);
      assert |cs - {c}| == |cs| - 1;
    }
  }

  /** The per-class F1 values sum to between 0 and the number of classes. */
  lemma ClassSumBounds<T>(cs: set<NLabel<T>>, t: seq<NLabel<T>>, p: seq<NLabel<T>>)
    requires |t| == |p|
    ensures 0.0 <= SumOver(cs, ClassScores(t, p)) <= |cs| as real
  {
    forall c | c in cs ensures 0.0 <= ClassScores(t, p)(c) <= 1.0 {
      ClassScoresInRange(t, p, c);
    }
    SumOverBounds(cs, ClassScores(t, p), 0.0, 1.0);
    TimesIsProduct(|cs|, 1.0);
  }

  /** The list of scores the source appends, for one enumeration order. */
  function ScoresInOrder<L>(order: seq<L>, score: L -> real): (s: seq<real>)
    ensures |s| == |order|
  {
    if |order| == 0 then []
    else ScoresInOrder(order[..|order| - 1], score) + [score(order[|order| - 1])]
  }

  /** Enumerating the classes in any order without repetition gives the
      same sum: the mean does not depend on the order of the class set. */
  lemma {:induction false} SumInAnyOrder<L>(order: seq<L>, cs: set<L>, score: L -> real)
    requires forall i, j :: 0 <= i < j < |order| ==> order[i] != order[j]
    requires forall c | c in cs :: c in order
    requires forall i :: 0 <= i < |order| ==> order[i] in cs
    ensures SumSeq(ScoresInOrder(order, score)) == SumOver(cs, score)
  {
    if |order| > 0 {
      var n := |order| - 1;
      var last := order[n];
      forall c | c in cs - {last} ensures c in order[..n] {
        var i :| 0 <= i < |order| && order[i] == c;
        assert order[..n][i] == c;
      }
      SumInAnyOrder(order[..n], cs - {last}, score);
      SumOverRemove(cs, score, last);
    } else {
      assert cs == {} by {
        forall c | c in cs ensures false {
        }
      }
    }
  }

  /** A sequence without repetitions has as many distinct elements as
      positions. */
  lemma {:induction false} DistinctCount<L>(order: seq<L>)
    requires forall i, j :: 0 <= i < j < |order| ==> order[i] != order[j]
    ensures |set x | x in order| == |order|
  {
    if |order| > 0 {
      var n := |order| - 1;
      DistinctCount(order[..n]);
      var front := set x | x in order[..n];
      assert order[n] !in front by {
        forall i | 0 <= i < n ensures order[..n][i] != order[n] {
        }
      }
      assert (set x | x in order) == front + {order[n]} by {
        forall x | x in order ensures x in front + {order[n]} {
          var i :| 0 <= i < |order| && order[i] == x;
          if i < n {
            assert order[..n][i] == x;
          }
        }
      }
    }
  }

  /** A repetition-free enumeration of a set has as many entries as the set
      has elements. */
  lemma EnumerationSize<L>(cs: set<L>, order: seq<L>)
    requires forall i, j :: 0 <= i < j < |order| ==> order[i] != order[j]
    requires forall c | c in cs :: c in order
    requires forall i :: 0 <= i < |order| ==> order[i] in cs
    ensures |cs| == |order|
  {
    DistinctCount(order);
    var listed := set x | x in order;
    forall x | x in order ensures x in cs {
      var i :| 0 <= i < |order| && order[i] == x;
    }
    assert cs == listed;
  }

  /** The mean over the class set equals the mean of the list the source
      builds for any enumeration of the classes without repetition. */
  lemma MeanInOrder<T>(t: seq<NLabel<T>>, p: seq<NLabel<T>>, order: seq<NLabel<T>>)
    requires |t| == |p| && |order| > 0
    requires forall i, j :: 0 <= i < j < |order| ==> order[i] != order[j]
    requires forall c | c in Classes(t, p) :: c in order
    requires forall i :: 0 <= i < |order| ==> order[i] in Classes(t, p)
    ensures MeanF1(t, p) == SumSeq(ScoresInOrder(order, ClassScores(t, p))) / |order| as real
  {
    var cs := Classes(t, p);
    SumInAnyOrder(order, cs, ClassScores(t, p));
    EnumerationSize(cs, order);
    assert order[0] in cs;
  }

  /** The sum over two distinct classes is the sum of their scores. */
  lemma SumOverPair<L>(a: L, b: L, score: L -> real)
    requires a != b
    ensures SumOver({a, b}, score) == score(a) + score(b)
  {
    SumOverRemove({a, b}, score, a);
    assert {a, b} - {a} == {b};
    SumOverRemove({b}, score, b);
    assert {b} - {b} == {};
  }

  /** The sum over three distinct classes is the sum of their scores. */
  lemma SumOverThree<L>(a: L, b: L, c: L, score: L -> real)
    requires a != b && a != c && b != c
    ensures SumOver({a, b, c}, score) == score(a) + score(b) + score(c)
  {
    SumOverRemove({a, b, c}, score, a);
    assert {a, b, c} - {a} == {b, c};
    SumOverPair(b, c, score);
  }

  /** The sum over four distinct classes is the sum of their scores. */
  lemma SumOverFour<L>(a: L, b: L, c: L, d: L, score: L -> real)
    requires a != b && a != c && a != d && b != c && b != d && c != d
    ensures SumOver({a, b, c, d}, score) == score(a) + score(b) + score(c) + score(d)
  {
    SumOverRemove({a, b, c, d}, score, a);
    assert {a, b, c, d} - {a} == {b, c, d};
    SumOverThree(b, c, d, score);
  }

  /** A sum over classes that all score the same value v is |cs| copies
      of v. */
  lemma SumOverConstant<L>(cs: set<L>, score: L -> real, v: real)
    requires forall c | c in cs :: score(c) == v
    ensures SumOver(cs, score) == Times(|cs|, v)
  {
    SumOverBounds(cs, score, v, v);
  }

  /** Two empty sequences have no classes and score 0. */
  lemma EmptyIsZero<T>(isNaN: T -> bool)
    ensures MacroF1([], [], isNaN) == Ok(0.0)
  {
  }

  /** A class that occurs in the truth of a perfect prediction scores 1. */
  lemma PerfectClassScoresOne<T>(t: seq<NLabel<T>>, c: NLabel<T>)
    requires c in t
    ensures ClassF1(t, t, c) == 1.0
  {
    CountsMatchOccurrences(t, t, c);
    IdenticalHasNoErrors(t, c);
    F1Range(TruePositives(t, t, c), FalsePositives(t, t, c), FalseNegatives(t, t, c));
  }

  lemma DivideProduct(s: real, m: real, n: real)
    requires n > 0.0 && s == m * n
    ensures s / n == m
  {
  }

  /** A sum over classes that all score v, divided by their number, is v. */
  lemma MeanOfConstant<L>(cs: set<L>, score: L -> real, v: real)
    requires cs != {}
    requires forall c | c in cs :: score(c) == v
    ensures SumOver(cs, score) / |cs| as real == v
  {
    var n := |cs| as real;
    assert SumOver(cs, score) == n * v by {
      SumOverConstant(cs, score, v);
      TimesIsProduct(|cs|, v);
    }
    DivideProduct(n * v, v, n);
  }

  /** Identical non-empty sequences score exactly 1: every class occurs in
      the truth, so it has tp > 0 and neither false positives nor false
      negatives. */
  lemma PerfectIsOne<T>(y: seq<T>, isNaN: T -> bool)
    requires |y| > 0
    ensures MacroF1(y, y, isNaN) == Ok(1.0)
  {
    var t := NormalizeAll(y, isNaN);
    var cs := Classes(t, t);
    var score := ClassScores(t, t);
    assert t[0] in cs;
    assert MeanF1(t, t) == 1.0 by {
      forall c | c in cs ensures score(c) == 1.0 {
        PerfectClassScoresOne(t, c);
      }
      MeanOfConstant(cs, score, 1.0);
    }
  }

  /** When no position agrees after normalisation, every tp is 0 and the
      score is 0. */
  lemma AllWrongIsZero<T>(yTrue: seq<T>, yPred: seq<T>, isNaN: T -> bool)
    requires |yTrue| == |yPred|
    requires forall i :: 0 <= i < |yTrue| ==> Normalize(yTrue[i], isNaN) != Normalize(yPred[i], isNaN)
    ensures MacroF1(yTrue, yPred, isNaN) == Ok(0.0)
  {
    var t, p := NormalizeAll(yTrue, isNaN), NormalizeAll(yPred, isNaN);
    var cs := Classes(t, p);
    var score := ClassScores(t, p);
    assert MeanF1(t, p) == 0.0 by {
      if cs != {} {
        forall c | c in cs ensures score(c) == 0.0 {
          DisagreementHasNoTruePositive(t, p, c);
          F1Range(TruePositives(t, p, c), FalsePositives(t, p, c), FalseNegatives(t, p, c));
        }
        MeanOfConstant(cs, score, 0.0);
      }
    }
  }

  /** One loop step of the implementations: appending the score of a class
      still to be visited keeps the running sum plus the sum over the rest
      equal to the sum over all classes. */
  lemma AppendScore<L>(f1s: seq<real>, rest: set<L>, all: set<L>, score: L -> real, c: L)
    requires c in rest
    requires SumSeq(f1s) + SumOver(rest, score) == SumOver(all, score)
    ensures SumSeq(f1s + [score(c)]) + SumOver(rest - {c}, score) == SumOver(all, score)
  {
    SumOverRemove(rest, score, c);
    assert (f1s + [score(c)])[..|f1s|] == f1s;
  }

  /** After the loop, the mean of the list is the macro-F1, with 0 for an
      empty list. */
  lemma MeanOfLoop<T>(t: seq<NLabel<T>>, p: seq<NLabel<T>>, f1s: seq<real>)
    requires |t| == |p|
    requires |f1s| == |Classes(t, p)|
    requires SumSeq(f1s) == SumOver(Classes(t, p), ClassScores(t, p))
    ensures (if |f1s| == 0 then 0.0 else SumSeq(f1s) / |f1s| as real) == MeanF1(t, p)
  {
  }

  /** `_macro_f1_ref` as the source runs it: check the lengths, normalise,
      collect the classes, append one F1 per class in whatever order the
      class set is enumerated, and return the mean. */
  method MacroF1Ref<T(==)>(yTrue: seq<T>, yPred: seq<T>, isNaN: T -> bool) returns (r: Result<real>)
    ensures r == MacroF1(yTrue, yPred, isNaN)
  {
    if |yTrue| != |yPred| {
      return Raise(ValueError);
    }
    var t := NormalizeAll(yTrue, isNaN);
    var p := NormalizeAll(yPred, isNaN);
    var classes := Classes(t, p);
    var f1s: seq<real> := [];
    var rest := classes;
    while rest != {}
      invariant rest <= classes
      invariant |f1s| + |rest| == |classes|
      invariant SumSeq(f1s) + SumOver(rest, ClassScores(t, p)) == SumOver(classes, ClassScores(t, p))
      decreases rest
    {
      var c :| c in rest;
      var tp := TruePositives(t, p, c);
      var fp := FalsePositives(t, p, c);
      var fn := FalseNegatives(t, p, c);
      var f1 := F1(tp, fp, fn);
      AppendScore(f1s, rest, classes, ClassScores(t, p), c);
      f1s := f1s + [f1];
      rest := rest - {c};
    }
    MeanOfLoop(t, p, f1s);
    r := Ok(if |f1s| == 0 then 0.0 else SumSeq(f1s) / |f1s| as real);
  }
}
