# Macro-F1 grading script: a Dafny model

The repository grades candidate implementations of `macro_f1(y_true, y_pred)`.
This is the macro-averaged F1 score of a multi-class classification, taken
over the union of the labels of both sequences, with every NaN counted as
one label. The script `grader/grade.py` has four parts:

- a label normaliser (`_is_nan`, `_normalize_label`) that turns every float
  NaN into one shared sentinel;
- a reference metric `_macro_f1_ref`;
- a per-case oracle `run_case`, which calls the candidate once and checks the
  expected exception, the output's type, its range, its value (within 1e-9
  of a literal or of the reference) and that neither input list changed;
- `main`, which runs a fixed battery of thirteen cases and passes only if
  every case passes.

Four candidate solutions (`runs/trial_02`, `trial_04`, `trial_06`,
`trial_08`) are modelled as well. Each is proved equal to the reference on
every input.

How the model is built:

- `Values`: Python floats (finite, infinite, NaN), the exception kinds, and
  the value-or-exception result of a call.
- `Labels`: labels are any type `T` with a predicate `isNaN` standing for
  "is a float and is NaN". Normalised labels are `NaNTag | Plain(v)`, where
  `NaNTag` stands for the sentinel object.
  - The normalisers of the four trials and of `grade.py` are the same
    function: `math.isnan(x)` and `x != x` agree on floats.
  - A per-call `object()` or `_NaNSentinel` instance plays the same role
    as the module-level sentinel of `grade.py`. Within one call there is exactly
    one such object.
- `Scores`: the confusion counts tp, fp and fn of a class, counted over the
  zipped pairs, and the zero-division-safe precision, recall and F1.
- `Reference`:
  - the specification `MacroF1`: a mean over the class *set*, summed in no
    particular order;
  - the method `MacroF1Ref`: `_macro_f1_ref` as a loop that appends one F1
    per class in whatever order the set is enumerated.
- `Trial02`, `Trial04`, `Trial06`, `Trial08`: the four candidates, each as
  the loop its source runs, with its own empty-input guard.
- `Oracle`:
  - a candidate is a function from the two lists to a `CallOutcome`: the
    exception it raised, or the value it returned together with the
    contents it left in the two lists it was given;
  - `Verdict` is the boolean `run_case` returns, or the exception that
    escapes it, as written. A `SystemExit` raised by the candidate is not an
    `Exception` and escapes. So does an OverflowError from `float(out)` on a
    huge int, and a ValueError from the reference run on lists the
    candidate changed;
  - `IntendedVerdict` is the verdict with those three defects repaired
    (see Findings);
  - `RunCase` is `run_case` as written and `RunBattery` is `main` as
    written: an escaping exception ends the run with its exit status.
    `RunCaseCorrected` and `RunBatteryCorrected` are the repaired versions.
- `Battery`: the thirteen cases of `main`, with the reference's exact
  value on `balanced_3class` (59/90), `nan_as_label` (13/24) and
  `all_wrong` (0).

Floats are modelled as exact reals. I/O is left out: messages and module
loading. The `sys.exit` calls become the exit status that the battery
runners return. The candidate is a parameter, not loaded code.

## Model

| member | source | states |
|---|---|---|
| Labels.Normalize | grader/grade.py:76-86 | a label becomes the NaN sentinel exactly when it is a float NaN; any other label is returned unchanged |
| Labels.Renormalize | grader/grade.py:82-86 | normalising a normalised label again leaves it unchanged exactly when it is the sentinel (not a float) or a label that is not NaN |
| Labels.NormalizeIdempotent | grader/grade.py:74-86 | normalising an already normalised label changes nothing, because the sentinel is not a float |
| Labels.SameClassIff | grader/grade.py:82-86 | two labels normalise to the same class iff both are NaN, or neither is and they are equal, so NaN equals NaN |
| Labels.NormalizeAll | grader/grade.py:105-106 | the normalised list has the input's length and holds the normalisation of each position |
| Labels.NormalizeAllShape | grader/grade.py:105-106 | the sentinel occurs in the normalised list iff some input is NaN; every other class is an input label that is not NaN |
| Scores.CountPairs | grader/grade.py:112-114 | a count over the zipped pairs is the number of positions whose truth and prediction match c as the generator's condition asks |
| Scores.TruePositives | grader/grade.py:112 | tp is the number of positions where truth and prediction both equal c |
| Scores.FalsePositives | grader/grade.py:113 | fp is the number of positions where the truth is not c and the prediction is c |
| Scores.FalseNegatives | grader/grade.py:114 | fn is the number of positions where the truth is c and the prediction is not c |
| Scores.CountsMatchOccurrences | grader/grade.py:112-114 | for every class c, tp+fn is the number of occurrences of c in the truth and tp+fp its number in the predictions |
| Scores.TruthOccurrences | grader/grade.py:112-114 | the positions where the truth is c are split exactly between tp and fn |
| Scores.PredictionOccurrences | grader/grade.py:112-113 | the positions where the prediction is c are split exactly between tp and fp |
| Scores.TruePositivesArePairs | grader/grade.py:112 | tp of c is the number of (c, c) pairs in zip(yt, yp) |
| Scores.IdenticalHasNoErrors | grader/grade.py:113-114 | when predictions equal the truth, every class has fp = fn = 0 |
| Scores.DisagreementHasNoTruePositive | grader/grade.py:112 | when no position agrees, every class has tp = 0 |
| Scores.Ratio | grader/grade.py:116-117 | precision and recall are 0 when their denominator is 0, lie in [0, 1], and are 0 exactly when tp is 0 |
| Scores.F1 | grader/grade.py:116-118 | the per-class F1 lies in [0, 1] and is 0 exactly when tp is 0; the guard on precision + recall avoids every division by zero |
| Scores.HarmonicMeanBounds | grader/grade.py:118 | the harmonic mean of a precision and a recall in (0, 1] lies in (0, 1] |
| Scores.F1IsDice | grader/grade.py:116-118 | the zero-division-safe F1 equals 2tp/(2tp+fp+fn), and it is 0 exactly when tp is 0 |
| Scores.F1Range | grader/grade.py:116-118 | each per-class F1 lies in [0, 1], is 0 exactly when tp = 0, and is 1 exactly when tp > 0 and fp = fn = 0 |
| Reference.Classes | grader/grade.py:108 | the class set holds every label of either sequence and nothing else; it is empty exactly when both sequences are |
| Reference.ClassF1 | grader/grade.py:111-118 | the F1 the loop computes for one class lies in [0, 1] and is 0 exactly when the class has no true positive |
| Reference.ClassScoresInRange | grader/grade.py:112-118 | every class's F1 lies in [0, 1] |
| Reference.SumSeqBounds | grader/grade.py:121 | `sum(f1s)` of n scores in [0, 1] lies in [0, n] |
| Reference.MeanF1 | grader/grade.py:121 | the mean of the per-class F1 values lies in [0, 1] |
| Reference.MacroF1 | grader/grade.py:97-121 | ValueError exactly when the lengths differ, raised before any normalising; otherwise a value in [0, 1] |
| Reference.SumOverRemove | grader/grade.py:108-121 | the sum of per-class scores does not depend on which class is taken first |
| Reference.SumInAnyOrder | grader/grade.py:108-121 | adding up the scores in any repetition-free enumeration of the class set gives the same sum |
| Reference.EnumerationSize | grader/grade.py:108-110 | a repetition-free enumeration of the class set has one entry per class, so `len(f1s)` is the number of classes |
| Reference.MeanInOrder | grader/grade.py:108-121 | the mean over the class set equals the mean of the list built in any enumeration order |
| Reference.EmptyIsZero | grader/grade.py:108-121 | two empty sequences have no classes and score 0.0 |
| Reference.PerfectIsOne | grader/grade.py:112-121 | identical non-empty sequences score exactly 1.0 |
| Reference.AllWrongIsZero | grader/grade.py:112-121 | sequences that disagree at every position after normalisation score exactly 0.0 |
| Reference.MacroF1Ref | grader/grade.py:97-121 | the loop over the classes, whatever their enumeration order, returns the specification's result, including its ValueError |
| Trial02.MacroF1 | runs/trial_02/solution.py:36-81 | equals the reference on all inputs: ValueError exactly on a length mismatch, otherwise a value in [0, 1]; the `if not classes` guard agrees with the reference's empty case |
| Trial04.SentinelEq | runs/trial_04/solution.py:31-47 | the `_NaNSentinel` equality holds exactly between equal normalised labels: a sentinel equals only a sentinel, plain labels compare as before |
| Trial04.MacroF1 | runs/trial_04/solution.py:22-84 | equals the reference on all inputs; the empty-sample guard after class collection agrees with the reference's empty case; result in [0, 1] |
| Trial06.MacroF1 | runs/trial_06/solution.py:22-85 | equals the reference on all inputs; the unguarded division at the end is well defined because a non-empty class set yields a non-empty score list |
| Trial08.MacroF1 | runs/trial_08/solution.py:24-79 | equals the reference on all inputs, for any enumeration order of the class set; result in [0, 1] |
| Oracle.IsNumeric | grader/grade.py:154 | the type check accepts exactly floats and ints |
| Oracle.ToFloat | grader/grade.py:158 | `float(out)` keeps a float, converts an int to its value, and raises OverflowError exactly for an int of magnitude at least 2^1024 - 2^970 |
| Oracle.InRange | grader/grade.py:159 | only a finite value can be in range, and every value in [0, 1] is |
| Oracle.ApproxEqual | grader/grade.py:123-126 | true only for two finite values, and then exactly when they are at most tol apart |
| Oracle.ApproxEqualSymmetric | grader/grade.py:123-126 | the comparison is symmetric and holds of a finite value and itself |
| Oracle.Target | grader/grade.py:163 | the comparison target raises exactly when no literal is given and the lengths differ |
| Oracle.Verdict | grader/grade.py:142-177 | run_case as written passes only a raised expected exception or an unmutated returned call; an exception escapes only as a SystemExit of the candidate, an OverflowError of an int output, or the reference's ValueError on lists whose lengths the candidate left unequal |
| Oracle.IntendedVerdict | grader/grade.py:142-177 | the intended verdict passes only a raised expected `Exception` or an unmutated returned call; the only escape is the reference's ValueError on a case whose own lists differ in length with nothing expected |
| Oracle.RunCase | grader/grade.py:134-177 | run_case as written computes the as-written verdict, with the reference seeing the lists as the candidate left them |
| Oracle.RunCaseCorrected | grader/grade.py:134-177 | the repaired run_case computes the intended verdict: every exception of the call is caught, a failed conversion fails the case, the reference runs on the snapshots |
| Oracle.ExpectedExceptionIff | grader/grade.py:142-152 | with an expected exception, a case passes iff the candidate raises that kind; returning or raising another `Exception` fails; as written a SystemExit escapes instead |
| Oracle.PassIff | grader/grade.py:154-177 | without an expected exception, a case passes iff the output is numeric, converts to a float in [0-1e-12, 1+1e-12] within 1e-9 of the literal or the reference, and both lists equal their snapshots |
| Oracle.MutationFails | grader/grade.py:168-174 | a candidate that changes either list never passes, even with the right value |
| Oracle.PassAgrees | grader/grade.py:142-177 | the as-written and the intended verdict pass exactly the same calls |
| Oracle.MutationCanEscape | grader/grade.py:163 | a candidate that appends to y_true makes the reference raise out of run_case as written, and makes the corrected version return a plain failure |
| Oracle.OverflowEscapes | grader/grade.py:154-158 | an int output of 2^1024 - 2^970 passes the type check and makes `float(out)` raise OverflowError out of run_case as written; as intended the case fails |
| Oracle.ReferenceBehaviourPasses | grader/grade.py:134-177 | a candidate that behaves like the reference and leaves its inputs alone passes every consistent case, under either verdict |
| Oracle.CaseVerdict | grader/grade.py:142-177 | whether a battery case passes is the same for run_case as written and as intended |
| Oracle.ExitStatus | grader/grade.py:222-227 | the status of `sys.exit(c)` is c for a code in 0..255, so `sys.exit(0)` and `sys.exit(1)` exit with 0 and 1; an exception other than SystemExit ending the process gives 1 |
| Oracle.MainStatus | grader/grade.py:181-227 | main's status lies in 0..255, and is 1 when a case has failed and no case lets an exception escape |
| Oracle.MainStatusIff | grader/grade.py:181-227 | when no exception escapes, main exits with 0 or 1, and with 0 exactly when every case passes |
| Oracle.ReferenceBehaviourPassesAll | grader/grade.py:181-227 | a candidate equal to the reference passes every case of a consistent battery and main exits with 0, as written and as intended |
| Oracle.ExitingCandidateEndsMain | grader/grade.py:147 | a candidate that calls `sys.exit(0)` (after the docstring the loading check requires) passes no case, yet main as written exits with status 0; as intended it exits with 1 |
| Oracle.RunBattery | grader/grade.py:181-227 | main as written: runs the cases in order, its exit status is main's status as written, every case before an escaping exception ran to a verdict, and the run stops at the case whose exception escapes |
| Oracle.RunBatteryCorrected | grader/grade.py:181-227 | main with the repaired run_case: on a consistent battery every case runs, no exception escapes, and the status is 0 exactly when every case passes and 1 otherwise |
| Battery.IsNaNLabel | grader/grade.py:76-80 | among the battery's labels, `_is_nan` holds exactly of the float NaN |
| Battery.CasesConsistent | grader/grade.py:185-220 | every battery case can be passed: only `length_mismatch` has unequal lengths and it expects ValueError; `perfect`'s literal 1.0 is the reference's value |
| Battery.ReferenceBehaviourPassesBattery | grader/grade.py:181-227 | a candidate equal to the reference that does not mutate its inputs passes every case of the battery, as written and as intended, and main exits with status 0 |
| Battery.Balanced3ClassScore | grader/grade.py:185 | the reference scores `balanced_3class` at exactly 59/90 (per class 1/2, 4/5, 2/3) |
| Battery.AllWrongScoresZero | grader/grade.py:192 | the reference scores `all_wrong` at exactly 0 |
| Battery.NaNAsLabelScore | grader/grade.py:198-201 | the reference scores `nan_as_label` at exactly 13/24 (classes NaN, a, b, x give 1/2, 2/3, 1, 0), so all NaNs form one class |

## Left out

- Candidate loading and the docstring/style check (grader/grade.py:17-70) are dynamic import and AST machinery. The nested-import check at lines 62-67 sits after `sys.exit(1)` and can never run. The candidate is a function parameter instead.
- `_materialize` (grader/grade.py:88-95) is the identity on sequences. numpy arrays and generators are given as the sequences they produce. `_frozen_copy_list` is a value copy, which is what assigning a `seq` does.
- The `str`-based sort key of the classes (grader/grade.py:108) only fixes an enumeration order. The model enumerates the class set in any order and proves the result independent of it.
- Floats are exact reals: rounding, and the order-dependence of a float sum, are not modelled. `math.isfinite` is modelled by the `Finite` case of a float value.
- Printed messages are left out. `RunBattery` returns the exit status instead of calling `sys.exit`.
- Of the exceptions that are not an `Exception`, only `SystemExit` is modelled. `KeyboardInterrupt` and `GeneratorExit` would escape in the same way.
- Oracle.ToFloat: the rounding of an int below the overflow bound to the nearest float is not modelled; the int's exact value is kept.
- The list comparisons at grader/grade.py:169 and 172 are taken not to raise. An element's own `__eq__` could raise there, outside the `try`.
- Labels are taken to be hashable. A candidate that appends an unhashable label would make the reference raise TypeError out of `run_case`; only the ValueError of a length change is modelled.
- Exception classes are compared by kind only: the subclass test `isinstance(e, expect_exception)` is modelled as equality of kinds.
- Host equality quirks (`True == 1 == 1.0`) are left out. Labels compare with the abstract equality of their type. The trials' "type-strict" docstrings are not checked by their code and are not claimed.
- Trial02.MacroF1, Trial04.MacroF1, Trial06.MacroF1, Trial08.MacroF1: the candidates' non-mutation of their inputs holds by value semantics (sequences are values). It is not stated as a separate contract.
- `Battery.Cases` is a constant, the thirteen cases in order. It carries no contract of its own; `Battery.CasesConsistent` states what is proved about it.
- `Battery`: the exact reference values of cases other than `balanced_3class`, `all_wrong`, `perfect` and `nan_as_label` are not computed. Those cases are covered only by the general lemmas.

## Findings

| source | as written | input that shows it | evidently intended | confidence | as-written member | corrected member |
|---|---|---|---|---|---|---|
| grader/grade.py:163 | the reference is called on `yt`, `yp` after the candidate had them, so a candidate that changes a list changes what the reference sees | a candidate that appends a label to y_true and returns 0.5 on a case with no literal: `_macro_f1_ref` raises ValueError outside the `try`, it escapes `run_case`, and `main` crashes instead of reporting "y_true was mutated" | the reference runs on the snapshots `yt0`, `yp0`, as the comment at line 135 states, so that candidate and reference see the same data, and the mutation is reported as a failure | not executed | Oracle.MutationCanEscape | Oracle.RunCaseCorrected |
| grader/grade.py:147 | `except Exception` does not catch `SystemExit`, so a candidate's `sys.exit(c)` ends `main` with the candidate's status | a candidate whose body is a docstring followed by `sys.exit(0)` (the docstring check at lines 55-58 lets it through): the first case ends the process with status 0, the status of a passing grade, and no case passed | every call of the candidate yields a verdict, so an exiting candidate fails its cases and `main` exits with 1 | not executed | Oracle.ExitingCandidateEndsMain | Oracle.RunBatteryCorrected |
| grader/grade.py:158 | `float(out)` runs outside the `try`, and it raises OverflowError for an int beyond the float range, which `isinstance(out, (float, int))` lets through | a candidate that returns `2**1024`: OverflowError escapes `run_case` and `main` crashes with a traceback | an output that cannot be converted fails the case like any other invalid output | not executed | Oracle.OverflowEscapes | Oracle.RunCaseCorrected |
