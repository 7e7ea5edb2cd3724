/** The fixed test battery of `main`, with the reference's value on some of
    its cases and the fact that a candidate behaving like the reference
    passes all of it. */
module Battery {
  import opened Values
  import opened Labels
  import opened Scores
  import opened Reference
  import opened Oracle

  /** The label values the battery uses: strings, ints (numpy integer arrays
      included), floats (NaN among them), tuples and frozensets. */
  datatype PyLabel =
    | Str(s: string)
    | Int(n: int)
    | Float(x: FloatVal)
    | Tuple(items: seq<PyLabel>)
    | FrozenSet(members: set<PyLabel>)

  const nan: PyLabel := Float(NaN)

  /** `isinstance(x, float) and math.isnan(x)`: every NaN float is the one
      value `nan` here. */
  function IsNaNLabel(l: PyLabel): (isNaN: bool)
    ensures isNaN <==> l == nan
  {
    l.Float? && l.x.NaN?
  }

  /** The battery in the order `main` runs it. numpy arrays and generators
      are given as the sequences they materialise to. */
  const Cases: seq<TestCase<PyLabel>> := [
    TestCase("balanced_3class",
      [Str("A"), Str("A"), Str("B"), Str("B"), Str("C"), Str("C")],
      [Str("A"), Str("B"), Str("B"), Str("B"), Str("C"), Str("A")], None, None),
    TestCase("no_pred_for_class",
      [Int(0), Int(0), Int(1), Int(1), Int(1), Int(2), Int(2)],
      [Int(0), Int(0), Int(1), Int(1), Int(1), Int(0), Int(0)], None, None),
    TestCase("class_absent_in_truth",
      [Int(0), Int(0), Int(1), Int(1), Int(1), Int(0), Int(0)],
      [Int(0), Int(0), Int(1), Int(1), Int(1), Int(2), Int(2)], None, None),
    TestCase("gapped_labels",
      [Int(0), Int(0), Int(2), Int(2), Int(5), Int(5), Int(5)],
      [Int(0), Int(2), Int(2), Int(5), Int(5), Int(5), Int(0)], None, None),
    TestCase("string_labels_unseen_pred",
      [Str("dog"), Str("dog"), Str("cat"), Str("cat"), Str("mouse")],
      [Str("dog"), Str("cat"), Str("cat"), Str("mouse"), Str("unicorn")], None, None),
    TestCase("numpy_arrays",
      [Int(1), Int(1), Int(2), Int(2), Int(3), Int(3)],
      [Int(1), Int(2), Int(2), Int(3), Int(3), Int(1)], None, None),
    TestCase("perfect",
      [Str("x"), Str("y"), Str("z"), Str("x"), Str("y"), Str("z")],
      [Str("x"), Str("y"), Str("z"), Str("x"), Str("y"), Str("z")], Some(Finite(1.0)), None),
    TestCase("all_wrong", [Int(0), Int(1), Int(2)], [Int(1), Int(2), Int(0)], None, None),
    TestCase("length_mismatch", [Int(0), Int(1), Int(2)], [Int(0), Int(1)], None, Some(ValueError)),
    TestCase("nan_as_label",
      [nan, Str("a"), Str("a"), nan, Str("b")],
      [nan, Str("a"), nan, Str("x"), Str("b")], None, None),
    TestCase("extreme_imbalance",
      seq(98, _ => Int(0)) + seq(2, _ => Int(1)),
      seq(99, _ => Int(0)) + [Int(1)], None, None),
    TestCase("composite_labels",
      [Tuple([Str("A"), Int(1)]), Tuple([Str("A"), Int(2)]), Str("B"), Str("B"), FrozenSet({Int(1), Int(2)})],
      [Tuple([Str("A"), Int(1)]), Str("B"), Str("B"), FrozenSet({Int(2), Int(1)}), Tuple([Str("X"), Int(9)])],
      None, None),
    TestCase("generator_inputs",
      [Str("a"), Str("b"), Str("a"), Str("c")],
      [Str("a"), Str("a"), Str("c"), Str("c")], None, None)
  ]

  /** Every case of the battery is one a correct metric can pass: only
      `length_mismatch` has unequal lengths and it expects ValueError, and
      `perfect`'s literal 1.0 is the reference's own value. */
  lemma CasesConsistent()
    ensures forall i | 0 <= i < |Cases| :: Consistent(Cases[i], IsNaNLabel)
  {
    PerfectIsOne(Cases[6].yTrue, IsNaNLabel);
  }

  /** A candidate that computes the reference's result (or raises its
      ValueError) and leaves its inputs alone passes every case, as written
      and as intended, so `main` exits with status 0 for it. */
  lemma ReferenceBehaviourPassesBattery(candidate: (seq<PyLabel>, seq<PyLabel>) -> CallOutcome<PyLabel>)
    requires forall a, b :: candidate(a, b) == AsCall(MacroF1(a, b, IsNaNLabel), a, b)
    ensures forall i, corrected | 0 <= i < |Cases| :: CaseVerdict(candidate, IsNaNLabel, Cases[i], corrected) == Ok(true)
    ensures MainStatus(candidate, IsNaNLabel, Cases, false, true) == 0
    ensures MainStatus(candidate, IsNaNLabel, Cases, true, true) == 0
  {
    CasesConsistent();
    ReferenceBehaviourPassesAll(candidate, IsNaNLabel, Cases);
  }

  /** `all_wrong`: no position agrees, so the reference scores 0. */
  lemma AllWrongScoresZero()
    ensures MacroF1(Cases[7].yTrue, Cases[7].yPred, IsNaNLabel) == Ok(0.0)
  {
    AllWrongIsZero(Cases[7].yTrue, Cases[7].yPred, IsNaNLabel);
  }

  /** The confusion counts of class c, read off the multisets of the truth,
      the predictions and their pairs. */
  lemma CountsFromMultisets(t: seq<NLabel<PyLabel>>, p: seq<NLabel<PyLabel>>, c: NLabel<PyLabel>)
    requires |t| == |p|
    ensures TruePositives(t, p, c) == multiset(Zip(t, p))[(c, c)]
    ensures FalseNegatives(t, p, c) + multiset(Zip(t, p))[(c, c)] == multiset(t)[c]
    ensures FalsePositives(t, p, c) + multiset(Zip(t, p))[(c, c)] == multiset(p)[c]
  {
    TruePositivesArePairs(t, p, c);
    CountsMatchOccurrences(t, p, c);
  }

  /** The confusion counts of class c, given the pairs of truth and
      prediction and the number of times c occurs in each side and (c, c)
      among the pairs. */
  lemma CountsAre(t: seq<NLabel<PyLabel>>, p: seq<NLabel<PyLabel>>, z: seq<(NLabel<PyLabel>, NLabel<PyLabel>)>,
                  c: NLabel<PyLabel>, tp: nat, fp: nat, fn: nat)
    requires |t| == |p| && Zip(t, p) == z
    requires multiset(z)[(c, c)] == tp && multiset(t)[c] == tp + fn && multiset(p)[c] == tp + fp
    ensures TruePositives(t, p, c) == tp && FalsePositives(t, p, c) == fp && FalseNegatives(t, p, c) == fn
  {
    CountsFromMultisets(t, p, c);
  }

  /** The F1 of class c from its confusion counts. */
  lemma ScoreFromTally(t: seq<NLabel<PyLabel>>, p: seq<NLabel<PyLabel>>, c: NLabel<PyLabel>,
                       tp: nat, fp: nat, fn: nat)
    requires |t| == |p|
    requires TruePositives(t, p, c) == tp && FalsePositives(t, p, c) == fp && FalseNegatives(t, p, c) == fn
    ensures ClassScores(t, p)(c) == if tp == 0 then 0.0 else (2 * tp) as real / (2 * tp + fp + fn) as real
  {
    F1IsDice(tp, fp, fn);
  }

  // The lemmas below about one concrete case take the normalised lists as
  // parameters fixed by their requires, rather than as literals in their
  // statements: each then reasons about one class of one case at a time,
  // which keeps every proof small.

  const A: NLabel<PyLabel> := Plain(Str("A"))
  const B: NLabel<PyLabel> := Plain(Str("B"))
  const C: NLabel<PyLabel> := Plain(Str("C"))

  /** `balanced_3class` after normalisation, as the pairs (truth, prediction). */
  lemma Balanced3ClassPairs(t: seq<NLabel<PyLabel>>, p: seq<NLabel<PyLabel>>)
    requires t == [A, A, B, B, C, C] && p == [A, B, B, B, C, A]
    ensures Zip(t, p) == [(A, A), (A, B), (B, B), (B, B), (C, C), (C, A)]
  {
  }

  /** `balanced_3class`: A has tp 1, fp 1, fn 1. */
  lemma Balanced3ClassCountsA(t: seq<NLabel<PyLabel>>, p: seq<NLabel<PyLabel>>)
    requires t == [A, A, B, B, C, C] && p == [A, B, B, B, C, A]
    ensures TruePositives(t, p, A) == 1 && FalsePositives(t, p, A) == 1 && FalseNegatives(t, p, A) == 1
  {
    Balanced3ClassPairs(t, p);
    CountsAre(t, p, [(A, A), (A, B), (B, B), (B, B), (C, C), (C, A)], A, 1, 1, 1);
  }

  /** `balanced_3class`: B has tp 2, fp 1, fn 0. */
  lemma Balanced3ClassCountsB(t: seq<NLabel<PyLabel>>, p: seq<NLabel<PyLabel>>)
    requires t == [A, A, B, B, C, C] && p == [A, B, B, B, C, A]
    ensures TruePositives(t, p, B) == 2 && FalsePositives(t, p, B) == 1 && FalseNegatives(t, p, B) == 0
  {
    Balanced3ClassPairs(t, p);
    CountsAre(t, p, [(A, A), (A, B), (B, B), (B, B), (C, C), (C, A)], B, 2, 1, 0);
  }

  /** `balanced_3class`: C has tp 1, fp 0, fn 1. */
  lemma Balanced3ClassCountsC(t: seq<NLabel<PyLabel>>, p: seq<NLabel<PyLabel>>)
    requires t == [A, A, B, B, C, C] && p == [A, B, B, B, C, A]
    ensures TruePositives(t, p, C) == 1 && FalsePositives(t, p, C) == 0 && FalseNegatives(t, p, C) == 1
  {
    Balanced3ClassPairs(t, p);
    CountsAre(t, p, [(A, A), (A, B), (B, B), (B, B), (C, C), (C, A)], C, 1, 0, 1);
  }

  /** `balanced_3class`: A, B and C score 1/2, 4/5 and 2/3. */
  lemma Balanced3ClassScores(t: seq<NLabel<PyLabel>>, p: seq<NLabel<PyLabel>>)
    requires t == [A, A, B, B, C, C] && p == [A, B, B, B, C, A]
    ensures ClassScores(t, p)(A) == 0.5 && ClassScores(t, p)(B) == 0.8 && ClassScores(t, p)(C) == 2.0 / 3.0
  {
    Balanced3ClassCountsA(t, p);
    Balanced3ClassCountsB(t, p);
    Balanced3ClassCountsC(t, p);
    ScoreFromTally(t, p, A, 1, 1, 1);
    ScoreFromTally(t, p, B, 2, 1, 0);
    ScoreFromTally(t, p, C, 1, 0, 1);
  }

  /** `balanced_3class` has the classes A, B and C. */
  lemma Balanced3ClassClasses(t: seq<NLabel<PyLabel>>, p: seq<NLabel<PyLabel>>)
    requires t == [A, A, B, B, C, C] && p == [A, B, B, B, C, A]
    ensures Classes(t, p) == {A, B, C}
  {
  }

  /** `balanced_3class`: with classes A, B, C scoring 1/2, 4/5 and 2/3,
      the mean is 59/90. */
  lemma Balanced3ClassMean(t: seq<NLabel<PyLabel>>, p: seq<NLabel<PyLabel>>)
    requires |t| == |p| && Classes(t, p) == {A, B, C}
    requires ClassScores(t, p)(A) == 0.5 && ClassScores(t, p)(B) == 0.8 && ClassScores(t, p)(C) == 2.0 / 3.0
    ensures MeanF1(t, p) == 59.0 / 90.0
  {
    SumOverThree(A, B, C, ClassScores(t, p));
    assert |{A, B, C}| == 3;
  }

  /** `balanced_3class` as `main` runs it: the reference returns 59/90. */
  lemma Balanced3ClassScore()
    ensures MacroF1(Cases[0].yTrue, Cases[0].yPred, IsNaNLabel) == Ok(59.0 / 90.0)
  {
    assert NormalizeAll(Cases[0].yTrue, IsNaNLabel) == [A, A, B, B, C, C];
    assert NormalizeAll(Cases[0].yPred, IsNaNLabel) == [A, B, B, B, C, A];
    var t, p := NormalizeAll(Cases[0].yTrue, IsNaNLabel), NormalizeAll(Cases[0].yPred, IsNaNLabel);
    Balanced3ClassScores(t, p);
    Balanced3ClassClasses(t, p);
    Balanced3ClassMean(t, p);
  }

  const NaNClass: NLabel<PyLabel> := NaNTag
  const LowerA: NLabel<PyLabel> := Plain(Str("a"))
  const LowerB: NLabel<PyLabel> := Plain(Str("b"))
  const LowerX: NLabel<PyLabel> := Plain(Str("x"))

  /** `nan_as_label` after normalisation, as the pairs (truth, prediction):
      every NaN has become the one NaN class. */
  lemma NaNAsLabelPairs(t: seq<NLabel<PyLabel>>, p: seq<NLabel<PyLabel>>)
    requires t == [NaNClass, LowerA, LowerA, NaNClass, LowerB]
    requires p == [NaNClass, LowerA, NaNClass, LowerX, LowerB]
    ensures Zip(t, p) == [(NaNClass, NaNClass), (LowerA, LowerA), (LowerA, NaNClass), (NaNClass, LowerX), (LowerB, LowerB)]
  {
  }

  /** `nan_as_label`: the NaN class has tp 1, fp 1, fn 1. */
  lemma NaNAsLabelCountsNaN(t: seq<NLabel<PyLabel>>, p: seq<NLabel<PyLabel>>)
    requires t == [NaNClass, LowerA, LowerA, NaNClass, LowerB]
    requires p == [NaNClass, LowerA, NaNClass, LowerX, LowerB]
    ensures TruePositives(t, p, NaNClass) == 1 && FalsePositives(t, p, NaNClass) == 1 && FalseNegatives(t, p, NaNClass) == 1
  {
    NaNAsLabelPairs(t, p);
    CountsAre(t, p, [(NaNClass, NaNClass), (LowerA, LowerA), (LowerA, NaNClass), (NaNClass, LowerX), (LowerB, LowerB)], NaNClass, 1, 1, 1);
  }

  /** `nan_as_label`: a has tp 1, fp 0, fn 1. */
  lemma NaNAsLabelCountsLowerA(t: seq<NLabel<PyLabel>>, p: seq<NLabel<PyLabel>>)
    requires t == [NaNClass, LowerA, LowerA, NaNClass, LowerB]
    requires p == [NaNClass, LowerA, NaNClass, LowerX, LowerB]
    ensures TruePositives(t, p, LowerA) == 1 && FalsePositives(t, p, LowerA) == 0 && FalseNegatives(t, p, LowerA) == 1
  {
    NaNAsLabelPairs(t, p);
    CountsAre(t, p, [(NaNClass, NaNClass), (LowerA, LowerA), (LowerA, NaNClass), (NaNClass, LowerX), (LowerB, LowerB)], LowerA, 1, 0, 1);
  }

  /** `nan_as_label`: b has tp 1 and no errors. */
  lemma NaNAsLabelCountsLowerB(t: seq<NLabel<PyLabel>>, p: seq<NLabel<PyLabel>>)
    requires t == [NaNClass, LowerA, LowerA, NaNClass, LowerB]
    requires p == [NaNClass, LowerA, NaNClass, LowerX, LowerB]
    ensures TruePositives(t, p, LowerB) == 1 && FalsePositives(t, p, LowerB) == 0 && FalseNegatives(t, p, LowerB) == 0
  {
    NaNAsLabelPairs(t, p);
    CountsAre(t, p, [(NaNClass, NaNClass), (LowerA, LowerA), (LowerA, NaNClass), (NaNClass, LowerX), (LowerB, LowerB)], LowerB, 1, 0, 0);
  }

  /** `nan_as_label`: x is predicted once and never true. */
  lemma NaNAsLabelCountsLowerX(t: seq<NLabel<PyLabel>>, p: seq<NLabel<PyLabel>>)
    requires t == [NaNClass, LowerA, LowerA, NaNClass, LowerB]
    requires p == [NaNClass, LowerA, NaNClass, LowerX, LowerB]
    ensures TruePositives(t, p, LowerX) == 0 && FalsePositives(t, p, LowerX) == 1 && FalseNegatives(t, p, LowerX) == 0
  {
    NaNAsLabelPairs(t, p);
    CountsAre(t, p, [(NaNClass, NaNClass), (LowerA, LowerA), (LowerA, NaNClass), (NaNClass, LowerX), (LowerB, LowerB)], LowerX, 0, 1, 0);
  }

  /** `nan_as_label`: the classes NaN, a, b and x score 1/2, 2/3, 1 and 0. */
  lemma NaNAsLabelScores(t: seq<NLabel<PyLabel>>, p: seq<NLabel<PyLabel>>)
    requires t == [NaNClass, LowerA, LowerA, NaNClass, LowerB]
    requires p == [NaNClass, LowerA, NaNClass, LowerX, LowerB]
    ensures ClassScores(t, p)(NaNClass) == 0.5 && ClassScores(t, p)(LowerA) == 2.0 / 3.0
    ensures ClassScores(t, p)(LowerB) == 1.0 && ClassScores(t, p)(LowerX) == 0.0
  {
    NaNAsLabelCountsNaN(t, p);
    NaNAsLabelCountsLowerA(t, p);
    NaNAsLabelCountsLowerB(t, p);
    NaNAsLabelCountsLowerX(t, p);
    ScoreFromTally(t, p, NaNClass, 1, 1, 1);
    ScoreFromTally(t, p, LowerA, 1, 0, 1);
    ScoreFromTally(t, p, LowerB, 1, 0, 0);
    ScoreFromTally(t, p, LowerX, 0, 1, 0);
  }

  /** `nan_as_label` has four classes: NaN, a, b and x. */
  lemma NaNAsLabelClasses(t: seq<NLabel<PyLabel>>, p: seq<NLabel<PyLabel>>)
    requires t == [NaNClass, LowerA, LowerA, NaNClass, LowerB]
    requires p == [NaNClass, LowerA, NaNClass, LowerX, LowerB]
    ensures Classes(t, p) == {NaNClass, LowerA, LowerB, LowerX}
  {
  }

  /** `nan_as_label`: with classes NaN, a, b, x scoring 1/2, 2/3, 1 and 0,
      the mean is 13/24. */
  lemma NaNAsLabelMean(t: seq<NLabel<PyLabel>>, p: seq<NLabel<PyLabel>>)
    requires |t| == |p| && Classes(t, p) == {NaNClass, LowerA, LowerB, LowerX}
    requires ClassScores(t, p)(NaNClass) == 0.5 && ClassScores(t, p)(LowerA) == 2.0 / 3.0
    requires ClassScores(t, p)(LowerB) == 1.0 && ClassScores(t, p)(LowerX) == 0.0
    ensures MeanF1(t, p) == 13.0 / 24.0
  {
    SumOverFour(NaNClass, LowerA, LowerB, LowerX, ClassScores(t, p));
    assert |{NaNClass, LowerA, LowerB, LowerX}| == 4;
  }

  /** `nan_as_label` as `main` runs it: the reference returns 13/24, so all
      NaNs form one class rather than each NaN its own. */
  lemma NaNAsLabelScore()
    ensures MacroF1(Cases[9].yTrue, Cases[9].yPred, IsNaNLabel) == Ok(13.0 / 24.0)
  {
    assert NormalizeAll(Cases[9].yTrue, IsNaNLabel) == [NaNClass, LowerA, LowerA, NaNClass, LowerB];
    assert NormalizeAll(Cases[9].yPred, IsNaNLabel) == [NaNClass, LowerA, NaNClass, LowerX, LowerB];
    var t, p := NormalizeAll(Cases[9].yTrue, IsNaNLabel), NormalizeAll(Cases[9].yPred, IsNaNLabel);
    NaNAsLabelScores(t, p);
    NaNAsLabelClasses(t, p);
    NaNAsLabelMean(t, p);
  }
}
