/** Candidate `macro_f1` of runs/trial_02: a `math.isnan` normaliser with a
    per-call sentinel, and an empty-classes guard. */
module Trial02 {
  import opened Values
  import opened Labels
  import opened Scores
  import opened Reference

  /** Materialise, check the lengths, normalise, return 0 for an empty
      class set, then one F1 per class in the set's enumeration order and
      their mean (guarded again against an empty list). */
  method MacroF1<T(==)>(yTrue: seq<T>, yPred: seq<T>, isNaN: T -> bool) returns (r: Result<real>)
    ensures r == Reference.MacroF1(yTrue, yPred, isNaN)
    ensures r.Raise? <==> |yTrue| != |yPred|
    ensures r.Ok? ==> 0.0 <= r.value <= 1.0
  {
    var yTrueList, yPredList := yTrue, yPred;
    if |yTrueList| != |yPredList| {
      return Raise(ValueError);
    }
    var t := NormalizeAll(yTrueList, isNaN);
    var p := NormalizeAll(yPredList, isNaN);
    var classes := Classes(t, p);
    if classes == {} {
      return Ok(0.0);
    }
    var f1Scores: seq<real> := [];
    var rest := classes;
    while rest != {}
      invariant rest <= classes
      invariant |f1Scores| + |rest| == |classes|
      invariant SumSeq(f1Scores) + SumOver(rest, ClassScores(t, p)) == SumOver(classes, ClassScores(t, p))
      decreases rest
    {
      var c :| c in rest;
      var tp := TruePositives(t, p, c);
      var fp := FalsePositives(t, p, c);
      var fn := FalseNegatives(t, p, c);
      var f1 := F1(tp, fp, fn);
      AppendScore(f1Scores, rest, classes, ClassScores(t, p), c);
      f1Scores := f1Scores + [f1];
      rest := rest - {c};
    }
    MeanOfLoop(t, p, f1Scores);
    r := Ok(if |f1Scores| > 0 then SumSeq(f1Scores) / |f1Scores| as real else 0.0);
  }
}
