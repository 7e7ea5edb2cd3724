/** The per-case oracle `run_case` and the battery runner `main`: call the
    candidate once on materialised lists, then check the expected exception,
    the output's type, its range, its value and the lists' contents. */
module Oracle {
  import opened Values
  import opened Reference

  /** What the candidate returned: a float, an int (a bool is an int), or
      anything else. */
  datatype PyValue = PyFloat(x: FloatVal) | PyInt(n: int) | NotNumeric

  /** What one call of the candidate did: it raised an exception, or it
      returned a value and left the two lists it was given with these
      contents (a candidate may change them in place). */
  datatype CallOutcome<T> =
    | Raised(kind: ExcKind)
    | Returned(value: PyValue, truthAfter: seq<T>, predAfter: seq<T>)

  /** How far outside [0, 1] an output may stray (1e-12). */
  const RangeSlack: real := 0.000000000001
  /** The absolute tolerance of the value comparison (1e-9). */
  const Tolerance: real := 0.000000001

  /** 2^1024 - 2^970: half-way between the largest finite float and 2^1024.
      `float(n)` rounds an int to nearest, ties to even, and a tie here
      rounds up, so this is the least magnitude it cannot convert. */
  const FloatOverflowBound: int :=
    179769313486231580793728971405303415079934132710037826936173778980444968292764750946649017977587207096330286416692887910946555547851940402630657488671505820681908902000708383676273854845817711531764475730270069855571366959622842914819860834936475292719074168444365510704342711559699508093042880177904174497792

  /** `isinstance(out, (float, int))`. */
  function IsNumeric(v: PyValue): (numeric: bool)
    ensures numeric <==> v.PyFloat? || v.PyInt?
  {
    !v.NotNumeric?
  }

  /** `float(out)` of a numeric output: a float is itself; an int too large
      in magnitude raises OverflowError, any other int converts to its value
      (rounding is not modelled). */
  function ToFloat(v: PyValue): (f: Result<FloatVal>)
    requires IsNumeric(v)
    ensures f.Raise? <==> v.PyInt? && (v.n >= FloatOverflowBound || v.n <= -FloatOverflowBound)
    ensures f.Raise? ==> f.exc == OverflowError
    ensures f.Ok? ==> f.value == if v.PyFloat? then v.x else Finite(v.n as real)
  {
    match v
    case PyFloat(x) => Ok(x)
    case PyInt(n) =>
      if n >= FloatOverflowBound || n <= -FloatOverflowBound then Raise(OverflowError)
      else Ok(Finite(n as real))
  }

  /** `0.0 - 1e-12 <= out <= 1.0 + 1e-12`; every comparison with NaN is
      false and the infinities lie outside. */
  function InRange(f: FloatVal): (ok: bool)
    ensures ok ==> f.Finite?
    ensures f.Finite? && 0.0 <= f.r <= 1.0 ==> ok
  {
    match f
    case Finite(r) => -RangeSlack <= r <= 1.0 + RangeSlack
    case _ => false
  }

  /** `_approx_equal`: both values finite and at most `tol` apart. */
  function ApproxEqual(a: FloatVal, b: FloatVal, tol: real): (ok: bool)
    ensures ok ==> a.Finite? && b.Finite?
    ensures a.Finite? && b.Finite? ==> (ok <==> a.r - tol <= b.r <= a.r + tol)
  {
    a.Finite? && b.Finite? && (if a.r >= b.r then a.r - b.r else b.r - a.r) <= tol
  }

  /** The approximate equality is symmetric and holds of a finite value and
      itself. */
  lemma ApproxEqualSymmetric(a: FloatVal, b: FloatVal, tol: real)
    ensures ApproxEqual(a, b, tol) == ApproxEqual(b, a, tol)
    ensures a.Finite? && tol >= 0.0 ==> ApproxEqual(a, a, tol)
  {
  }

  /** The value the output is compared with: the literal `expect` when one
      is given, otherwise the reference's result on the given lists (which
      raises ValueError on a length mismatch). */
  ghost function Target<T>(yTrue: seq<T>, yPred: seq<T>, expected: Option<FloatVal>, isNaN: T -> bool): (r: Result<FloatVal>)
    ensures r.Raise? <==> expected.None? && |yTrue| != |yPred|
  {
    if expected.Some? then Ok(expected.value)
    else match MacroF1(yTrue, yPred, isNaN)
      case Ok(v) => Ok(Finite(v))
      case Raise(e) => Raise(e)
  }

  /** One case's verdict as the source computes it. Ok(b) is the boolean
      run_case returns; Raise(e) is an exception escaping run_case. A
      `SystemExit` is not caught by `except Exception`, `float(out)` and the
      reference run outside the `try`, and the reference sees the lists as
      the candidate left them. */
  ghost function Verdict<T>(call: CallOutcome<T>, yTrue: seq<T>, yPred: seq<T>,
                            expected: Option<FloatVal>, expectedExc: Option<ExcKind>, isNaN: T -> bool): (r: Result<bool>)
    ensures r == Ok(true) ==>
      || (call.Raised? && expectedExc == Some(call.kind))
      || (call.Returned? && call.truthAfter == yTrue && call.predAfter == yPred)
    ensures r.Raise? ==>
      || (call.Raised? && !IsException(call.kind) && r.exc == call.kind)
      || (call.Returned? && expectedExc.None? && call.value.PyInt? && r.exc == OverflowError)
      || (call.Returned? && expectedExc.None? && expected.None? &&
          |call.truthAfter| != |call.predAfter| && r.exc == ValueError)
  {
    match call
    case Raised(k) =>
      if !IsException(k) then Raise(k)
      else Ok(expectedExc.Some? && k == expectedExc.value)
    case Returned(v, truthAfter, predAfter) =>
      if expectedExc.Some? || !IsNumeric(v) then Ok(false)
      else match ToFloat(v)
        case Raise(e) => Raise(e)
        case Ok(out) =>
          if !InRange(out) then Ok(false)
          else match Target(truthAfter, predAfter, expected, isNaN)
            case Raise(e) => Raise(e)
            case Ok(ref) => Ok(ApproxEqual(out, ref, Tolerance) && truthAfter == yTrue && predAfter == yPred)
  }

  /** The verdict as intended: whatever the candidate raises or returns is
      a verdict on the case (an exit or an unconvertible output fails it),
      and the reference runs on the snapshots, the data the candidate was
      given. Only a case whose own lists differ in length, with nothing
      expected, lets the reference's ValueError through. */
  ghost function IntendedVerdict<T>(call: CallOutcome<T>, yTrue: seq<T>, yPred: seq<T>,
                                    expected: Option<FloatVal>, expectedExc: Option<ExcKind>, isNaN: T -> bool): (r: Result<bool>)
    ensures r == Ok(true) ==>
      || (call.Raised? && IsException(call.kind) && expectedExc == Some(call.kind))
      || (call.Returned? && call.truthAfter == yTrue && call.predAfter == yPred)
    ensures r.Raise? ==>
      call.Returned? && expectedExc.None? && expected.None? && |yTrue| != |yPred| && r.exc == ValueError
  {
    match call
    case Raised(k) => Ok(IsException(k) && expectedExc.Some? && k == expectedExc.value)
    case Returned(v, truthAfter, predAfter) =>
      if expectedExc.Some? || !IsNumeric(v) || ToFloat(v).Raise? then Ok(false)
      else
        var out := ToFloat(v).value;
        if !InRange(out) then Ok(false)
        else match Target(yTrue, yPred, expected, isNaN)
          case Raise(e) => Raise(e)
          case Ok(ref) => Ok(ApproxEqual(out, ref, Tolerance) && truthAfter == yTrue && predAfter == yPred)
  }

  /** `run_case` as written: materialise, snapshot, call the candidate, then
      the early-return checks; the reference is called on `yt` and `yp`
      after the candidate has had them. */
  method RunCase<T(==)>(candidate: (seq<T>, seq<T>) -> CallOutcome<T>, isNaN: T -> bool,
                        yTrue: seq<T>, yPred: seq<T>,
                        expected: Option<FloatVal>, expectedExc: Option<ExcKind>) returns (r: Result<bool>)
    ensures r == Verdict(candidate(yTrue, yPred), yTrue, yPred, expected, expectedExc, isNaN)
  {
    var yt, yp := yTrue, yPred;
    var yt0, yp0 := yt, yp;
    var call := candidate(yt, yp);
    if call.Raised? {
      if !IsException(call.kind) {
        return Raise(call.kind);
      }
      return Ok(expectedExc.Some? && call.kind == expectedExc.value);
    }
    if expectedExc.Some? {
      return Ok(false);
    }
    yt, yp := call.truthAfter, call.predAfter;
    if !IsNumeric(call.value) {
      return Ok(false);
    }
    var conversion := ToFloat(call.value);
    if conversion.Raise? {
      return Raise(conversion.exc);
    }
    var out := conversion.value;
    if !InRange(out) {
      return Ok(false);
    }
    var target: FloatVal;
    if expected.None? {
      var ref := MacroF1Ref(yt, yp, isNaN);
      if ref.Raise? {
        return Raise(ref.exc);
      }
      target := Finite(ref.value);
    } else {
      target := expected.value;
    }
    if !ApproxEqual(out, target, Tolerance) {
      return Ok(false);
    }
    if yt != yt0 {
      return Ok(false);
    }
    if yp != yp0 {
      return Ok(false);
    }
    return Ok(true);
  }

  /** `run_case` corrected: every exception of the call is caught, an
      output `float()` cannot convert fails the case, and the reference is
      called on the snapshots, so that it sees the data the candidate was
      given. */
  method RunCaseCorrected<T(==)>(candidate: (seq<T>, seq<T>) -> CallOutcome<T>, isNaN: T -> bool,
                                 yTrue: seq<T>, yPred: seq<T>,
                                 expected: Option<FloatVal>, expectedExc: Option<ExcKind>) returns (r: Result<bool>)
    ensures r == IntendedVerdict(candidate(yTrue, yPred), yTrue, yPred, expected, expectedExc, isNaN)
  {
    var yt, yp := yTrue, yPred;
    var yt0, yp0 := yt, yp;
    var call := candidate(yt, yp);
    if call.Raised? {
      return Ok(IsException(call.kind) && expectedExc.Some? && call.kind == expectedExc.value);
    }
    if expectedExc.Some? {
      return Ok(false);
    }
    yt, yp := call.truthAfter, call.predAfter;
    if !IsNumeric(call.value) {
      return Ok(false);
    }
    var conversion := ToFloat(call.value);
    if conversion.Raise? {
      return Ok(false);
    }
    var out := conversion.value;
    if !InRange(out) {
      return Ok(false);
    }
    var target: FloatVal;
    if expected.None? {
      var ref := MacroF1Ref(yt0, yp0, isNaN);
      if ref.Raise? {
        return Raise(ref.exc);
      }
      target := Finite(ref.value);
    } else {
      target := expected.value;
    }
    if !ApproxEqual(out, target, Tolerance) {
      return Ok(false);
    }
    if yt != yt0 {
      return Ok(false);
    }
    if yp != yp0 {
      return Ok(false);
    }
    return Ok(true);
  }

  /** With an expected exception, a case passes exactly when the candidate
      raises that kind; returning normally or raising another kind fails.
      As written, a `SystemExit` escapes instead; as intended it fails. */
  lemma ExpectedExceptionIff<T>(call: CallOutcome<T>, yTrue: seq<T>, yPred: seq<T>,
                                expected: Option<FloatVal>, k: ExcKind, isNaN: T -> bool)
    ensures Verdict(call, yTrue, yPred, expected, Some(k), isNaN) ==
            if call.Raised? && !IsException(call.kind) then Raise(call.kind) else Ok(call == Raised(k))
    ensures IntendedVerdict(call, yTrue, yPred, expected, Some(k), isNaN) == Ok(IsException(k) && call == Raised(k))
  {
  }

  /** Without an expected exception, a case passes exactly when the call
      returned a number that converts to a float within
      [0 - 1e-12, 1 + 1e-12] and within 1e-9 of the target, and both lists
      still equal their snapshots. */
  lemma PassIff<T>(call: CallOutcome<T>, yTrue: seq<T>, yPred: seq<T>,
                   expected: Option<FloatVal>, isNaN: T -> bool)
    ensures IntendedVerdict(call, yTrue, yPred, expected, None, isNaN) == Ok(true) <==>
      && call.Returned? && IsNumeric(call.value) && ToFloat(call.value).Ok?
      && InRange(ToFloat(call.value).value)
      && Target(yTrue, yPred, expected, isNaN).Ok?
      && ApproxEqual(ToFloat(call.value).value, Target(yTrue, yPred, expected, isNaN).value, Tolerance)
      && call.truthAfter == yTrue && call.predAfter == yPred
  {
  }

  /** A candidate that changes either list fails the case, even when its
      value is right; with the reference run on the snapshots this is always
      a plain failure. */
  lemma MutationFails<T>(call: CallOutcome<T>, yTrue: seq<T>, yPred: seq<T>,
                         expected: Option<FloatVal>, isNaN: T -> bool)
    requires call.Returned? && (call.truthAfter != yTrue || call.predAfter != yPred)
    requires |yTrue| == |yPred| || expected.Some?
    ensures Verdict(call, yTrue, yPred, expected, None, isNaN) != Ok(true)
    ensures IntendedVerdict(call, yTrue, yPred, expected, None, isNaN) == Ok(false)
  {
  }

  /** Where the reference runs, and whether exits and conversion errors
      escape, does not change whether a case passes: both verdicts pass
      only for an unmutated call, on which they agree. */
  lemma PassAgrees<T>(call: CallOutcome<T>, yTrue: seq<T>, yPred: seq<T>,
                      expected: Option<FloatVal>, expectedExc: Option<ExcKind>, isNaN: T -> bool)
    ensures Verdict(call, yTrue, yPred, expected, expectedExc, isNaN) == Ok(true) <==>
            IntendedVerdict(call, yTrue, yPred, expected, expectedExc, isNaN) == Ok(true)
  {
  }

  /** The source as written: a candidate that appends a label to y_true and
      returns 0.5 makes the reference raise ValueError on the grown list,
      and the exception escapes run_case; on the snapshots the same call is
      a plain mutation failure. */
  lemma MutationCanEscape<T>(x: T, isNaN: T -> bool)
    ensures Verdict(Returned(PyFloat(Finite(0.5)), [x, x], [x]), [x], [x], None, None, isNaN) == Raise(ValueError)
    ensures IntendedVerdict(Returned(PyFloat(Finite(0.5)), [x, x], [x]), [x], [x], None, None, isNaN) == Ok(false)
  {
  }

  /** The source as written: an int output too large for a float passes
      the type check, and then `float(out)` raises OverflowError out of
      run_case; as intended the case fails. */
  lemma OverflowEscapes<T>(yTrue: seq<T>, yPred: seq<T>, isNaN: T -> bool)
    ensures Verdict(Returned(PyInt(FloatOverflowBound), yTrue, yPred), yTrue, yPred, None, None, isNaN) == Raise(OverflowError)
    ensures IntendedVerdict(Returned(PyInt(FloatOverflowBound), yTrue, yPred), yTrue, yPred, None, None, isNaN) == Ok(false)
  {
  }

  /** A helper for the lemmas below: the outcome of calling a candidate
      that computes the reference's result (as each of the four trial
      solutions is proved to) and leaves its inputs alone. */
  function AsCall<T>(r: Result<real>, yTrue: seq<T>, yPred: seq<T>): (call: CallOutcome<T>)
    ensures call.Raised? <==> r.Raise?
    ensures call.Returned? ==> call.value == PyFloat(Finite(r.value)) && call.truthAfter == yTrue && call.predAfter == yPred
  {
    match r
    case Ok(v) => Returned(PyFloat(Finite(v)), yTrue, yPred)
    case Raise(e) => Raised(e)
  }

  /** A test case of the battery. */
  datatype TestCase<T> = TestCase(name: string, yTrue: seq<T>, yPred: seq<T>,
                                  expected: Option<FloatVal>, expectedExc: Option<ExcKind>)

  /** A case a correct metric can pass: a length mismatch that expects
      ValueError, or equal lengths with no expected exception and, if a
      literal is given, the reference's own value. */
  ghost predicate Consistent<T>(tc: TestCase<T>, isNaN: T -> bool)
  {
    if tc.expectedExc.Some? then tc.expectedExc == Some(ValueError) && |tc.yTrue| != |tc.yPred|
    else |tc.yTrue| == |tc.yPred| &&
         (tc.expected.Some? ==> Ok(tc.expected.value) == Target(tc.yTrue, tc.yPred, None, isNaN))
  }

  /** A candidate that behaves like the reference and does not mutate its
      inputs passes every consistent case, under either verdict. */
  lemma ReferenceBehaviourPasses<T>(tc: TestCase<T>, isNaN: T -> bool)
    requires Consistent(tc, isNaN)
    ensures IntendedVerdict(AsCall(MacroF1(tc.yTrue, tc.yPred, isNaN), tc.yTrue, tc.yPred),
                            tc.yTrue, tc.yPred, tc.expected, tc.expectedExc, isNaN) == Ok(true)
    ensures Verdict(AsCall(MacroF1(tc.yTrue, tc.yPred, isNaN), tc.yTrue, tc.yPred),
                    tc.yTrue, tc.yPred, tc.expected, tc.expectedExc, isNaN) == Ok(true)
  {
    var r := MacroF1(tc.yTrue, tc.yPred, isNaN);
    var call := AsCall(r, tc.yTrue, tc.yPred);
    if tc.expectedExc.Some? {
      assert call == Raised(ValueError);
    } else {
      assert r.Ok? && call == Returned(PyFloat(Finite(r.value)), tc.yTrue, tc.yPred);
      assert Target(tc.yTrue, tc.yPred, tc.expected, isNaN) == Ok(Finite(r.value));
      ApproxEqualSymmetric(Finite(r.value), Finite(r.value), Tolerance);
      assert ApproxEqual(Finite(r.value), Finite(r.value), Tolerance);
    }
  }

  /** The verdict of one case of the battery for a candidate, as written
      or, with `corrected`, as intended. Whether the case passes is the
      same either way. */
  ghost function CaseVerdict<T>(candidate: (seq<T>, seq<T>) -> CallOutcome<T>, isNaN: T -> bool,
                                 tc: TestCase<T>, corrected: bool): (r: Result<bool>)
    ensures r == Ok(true) <==>
      IntendedVerdict(candidate(tc.yTrue, tc.yPred), tc.yTrue, tc.yPred, tc.expected, tc.expectedExc, isNaN) == Ok(true)
  {
    var call := candidate(tc.yTrue, tc.yPred);
    PassAgrees(call, tc.yTrue, tc.yPred, tc.expected, tc.expectedExc, isNaN);
    if corrected then IntendedVerdict(call, tc.yTrue, tc.yPred, tc.expected, tc.expectedExc, isNaN)
    else Verdict(call, tc.yTrue, tc.yPred, tc.expected, tc.expectedExc, isNaN)
  }

  /** The exit status of a process ended by an exception: `SystemExit(c)`
      exits with c, of which the system keeps the low eight bits; any other
      exception prints a traceback and exits with 1. */
  function ExitStatus(e: ExcKind): (status: int)
    ensures 0 <= status < 256
    ensures !e.SystemExit? ==> status == 1
    ensures e.SystemExit? && 0 <= e.code < 256 ==> status == e.code
  {
    match e
    case SystemExit(c) => c % 256
    case _ => 1
  }

  /** The exit status of `main` on the cases still to run, with `allOk`
      the conjunction of the verdicts so far: an escaping exception ends
      the run with its status, otherwise 0 when every case passed and 1
      when one failed. */
  ghost function MainStatus<T>(candidate: (seq<T>, seq<T>) -> CallOutcome<T>, isNaN: T -> bool,
                               cases: seq<TestCase<T>>, corrected: bool, allOk: bool): (status: int)
    ensures 0 <= status < 256
    ensures !allOk && (forall i | 0 <= i < |cases| :: !CaseVerdict(candidate, isNaN, cases[i], corrected).Raise?) ==> status == 1
    decreases |cases|
  {
    if |cases| == 0 then (if allOk then 0 else 1)
    else match CaseVerdict(candidate, isNaN, cases[0], corrected)
      case Raise(e) => ExitStatus(e)
      case Ok(b) =>
        assert forall i | 0 <= i < |cases| - 1 :: cases[1..][i] == cases[i + 1];
        MainStatus(candidate, isNaN, cases[1..], corrected, allOk && b)
  }

  /** When no case lets an exception escape, `main` exits with 0 exactly
      when every case passes, and with 1 otherwise. */
  lemma {:induction false} MainStatusIff<T>(candidate: (seq<T>, seq<T>) -> CallOutcome<T>, isNaN: T -> bool,
                                            cases: seq<TestCase<T>>, corrected: bool, allOk: bool)
    requires forall i | 0 <= i < |cases| :: CaseVerdict(candidate, isNaN, cases[i], corrected).Ok?
    ensures var status := MainStatus(candidate, isNaN, cases, corrected, allOk);
      && (status == 0 || status == 1)
      && (status == 0 <==> allOk && forall i | 0 <= i < |cases| :: CaseVerdict(candidate, isNaN, cases[i], corrected) == Ok(true))
    decreases |cases|
  {
    if |cases| > 0 {
      var b := CaseVerdict(candidate, isNaN, cases[0], corrected).value;
      assert forall i | 0 <= i < |cases| - 1 :: cases[1..][i] == cases[i + 1];
      MainStatusIff(candidate, isNaN, cases[1..], corrected, allOk && b);
    }
  }

  /** A candidate that behaves like the reference and leaves its inputs
      alone passes every case of a consistent battery, as written and as
      intended, and `main` exits with 0. */
  lemma ReferenceBehaviourPassesAll<T>(candidate: (seq<T>, seq<T>) -> CallOutcome<T>, isNaN: T -> bool,
                                       cases: seq<TestCase<T>>)
    requires forall a, b :: candidate(a, b) == AsCall(MacroF1(a, b, isNaN), a, b)
    requires forall i | 0 <= i < |cases| :: Consistent(cases[i], isNaN)
    ensures forall i, corrected | 0 <= i < |cases| :: CaseVerdict(candidate, isNaN, cases[i], corrected) == Ok(true)
    ensures MainStatus(candidate, isNaN, cases, false, true) == 0
    ensures MainStatus(candidate, isNaN, cases, true, true) == 0
  {
    forall i, corrected | 0 <= i < |cases| ensures CaseVerdict(candidate, isNaN, cases[i], corrected) == Ok(true) {
      ReferenceBehaviourPasses(cases[i], isNaN);
    }
    MainStatusIff(candidate, isNaN, cases, false, true);
    MainStatusIff(candidate, isNaN, cases, true, true);
  }

  /** The source as written: a candidate whose body is a docstring followed
      by `sys.exit(0)` (so that it gets past the docstring check) ends
      `main` at the first case with exit status 0, although no case passed;
      as intended, every case fails and the status is 1. */
  lemma ExitingCandidateEndsMain<T>(candidate: (seq<T>, seq<T>) -> CallOutcome<T>, isNaN: T -> bool,
                                    cases: seq<TestCase<T>>)
    requires |cases| > 0
    requires forall a, b :: candidate(a, b) == Raised(SystemExit(0))
    ensures MainStatus(candidate, isNaN, cases, false, true) == 0
    ensures forall i | 0 <= i < |cases| :: CaseVerdict(candidate, isNaN, cases[i], false) != Ok(true)
    ensures MainStatus(candidate, isNaN, cases, true, true) == 1
  {
    assert CaseVerdict(candidate, isNaN, cases[0], false) == Raise(SystemExit(0));
    MainStatusIff(candidate, isNaN, cases, true, true);
  }

  /** `main` as written: run every case in order through `run_case`,
      `all_ok &= ...` (a failed case does not stop the later ones), and exit
      with 0 when all passed and 1 otherwise. An exception escaping a case
      ends the run at once with its exit status; `ran` is the number of
      cases that completed. */
  method RunBattery<T(==)>(candidate: (seq<T>, seq<T>) -> CallOutcome<T>, isNaN: T -> bool,
                           cases: seq<TestCase<T>>) returns (exitCode: int, ran: nat)
    ensures exitCode == MainStatus(candidate, isNaN, cases, false, true)
    ensures ran <= |cases|
    ensures forall i | 0 <= i < ran :: CaseVerdict(candidate, isNaN, cases[i], false).Ok?
    ensures ran < |cases| ==> CaseVerdict(candidate, isNaN, cases[ran], false).Raise?
  {
    var allOk := true;
    var i := 0;
    while i < |cases|
      invariant 0 <= i <= |cases|
      invariant MainStatus(candidate, isNaN, cases[i..], false, allOk) == MainStatus(candidate, isNaN, cases, false, true)
      invariant forall j | 0 <= j < i :: CaseVerdict(candidate, isNaN, cases[j], false).Ok?
    {
      var tc := cases[i];
      var r := RunCase(candidate, isNaN, tc.yTrue, tc.yPred, tc.expected, tc.expectedExc);
      assert cases[i..][0] == tc && cases[i..][1..] == cases[i + 1..];
      if r.Raise? {
        return ExitStatus(r.exc), i;
      }
      allOk := allOk && r.value;
      i := i + 1;
    }
    exitCode := if allOk then 0 else 1;
    ran := |cases|;
  }

  /** `main` with the corrected `run_case`: on a battery of consistent
      cases no exception escapes, every case runs, and the exit status is 0
      exactly when every case passes. */
  method RunBatteryCorrected<T(==)>(candidate: (seq<T>, seq<T>) -> CallOutcome<T>, isNaN: T -> bool,
                                    cases: seq<TestCase<T>>) returns (exitCode: int, ran: nat)
    ensures exitCode == MainStatus(candidate, isNaN, cases, true, true)
    ensures ran <= |cases|
    ensures forall i | 0 <= i < ran :: CaseVerdict(candidate, isNaN, cases[i], true).Ok?
    ensures ran < |cases| ==> CaseVerdict(candidate, isNaN, cases[ran], true).Raise?
    ensures (forall i | 0 <= i < |cases| :: Consistent(cases[i], isNaN)) ==>
      && ran == |cases|
      && (exitCode == 0 || exitCode == 1)
      && (exitCode == 0 <==> forall i | 0 <= i < |cases| :: CaseVerdict(candidate, isNaN, cases[i], true) == Ok(true))
  {
    var allOk := true;
    var i := 0;
    while i < |cases|
      invariant 0 <= i <= |cases|
      invariant MainStatus(candidate, isNaN, cases[i..], true, allOk) == MainStatus(candidate, isNaN, cases, true, true)
      invariant forall j | 0 <= j < i :: CaseVerdict(candidate, isNaN, cases[j], true).Ok?
    {
      var tc := cases[i];
      var r := RunCaseCorrected(candidate, isNaN, tc.yTrue, tc.yPred, tc.expected, tc.expectedExc);
      assert cases[i..][0] == tc && cases[i..][1..] == cases[i + 1..];
      if r.Raise? {
        return ExitStatus(r.exc), i;
      }
      allOk := allOk && r.value;
      i := i + 1;
    }
    exitCode := if allOk then 0 else 1;
    ran := |cases|;
    if forall j | 0 <= j < |cases| :: Consistent(cases[j], isNaN) {
      MainStatusIff(candidate, isNaN, cases, true, true);
    }
  }
}
