/** Label normalisation: every float NaN collapses to one shared tag so that
    NaN equals NaN; every other label is kept as it is. */
module Labels {

  /** A normalised label. `NaNTag` stands for the shared sentinel object that
      replaces every NaN; `Plain(v)` is any other label, unchanged. */
  datatype NLabel<T> = NaNTag | Plain(v: T)

  /** Normalises one label. `isNaN` is the source's test "is a float and is
      NaN" (`math.isnan`, or `x != x` on a float: the two agree on floats). */
  function Normalize<T>(x: T, isNaN: T -> bool): (n: NLabel<T>)
    ensures n.NaNTag? <==> isNaN(x)
    ensures n.Plain? ==> n.v == x
  {
    if isNaN(x) then NaNTag else Plain(x)
  }

  /** The normaliser applied again to its own output: the sentinel is not a
      float, so it passes through; a plain label goes through the test again.
      A normalised label is a fixed point: it comes back unchanged exactly
      when it is the sentinel or a label that is not NaN. */
  function Renormalize<T>(n: NLabel<T>, isNaN: T -> bool): (m: NLabel<T>)
    ensures m == n <==> n.NaNTag? || !isNaN(n.v)
  {
    match n
    case NaNTag => NaNTag
    case Plain(x) => Normalize(x, isNaN)
  }

  /** Normalising twice is normalising once. */
  lemma NormalizeIdempotent<T>(x: T, isNaN: T -> bool)
    ensures Renormalize(Normalize(x, isNaN), isNaN) == Normalize(x, isNaN)
  {
  }

  /** Two labels fall into the same class exactly when both are NaN or
      neither is and they are equal: NaN equals NaN, whatever NaN it is. */
  lemma SameClassIff<T>(x: T, y: T, isNaN: T -> bool)
    ensures Normalize(x, isNaN) == Normalize(y, isNaN) <==>
            (isNaN(x) && isNaN(y)) || (!isNaN(x) && !isNaN(y) && x == y)
  {
  }

  /** Normalises a whole sequence, position by position. */
  function NormalizeAll<T>(s: seq<T>, isNaN: T -> bool): (r: seq<NLabel<T>>)
    ensures |r| == |s|
    ensures forall i :: 0 <= i < |s| ==> r[i] == Normalize(s[i], isNaN)
  {
    seq(|s|, i requires 0 <= i < |s| => Normalize(s[i], isNaN))
  }

  /** After normalisation the NaN tag occurs exactly where a NaN did, and
      every plain label is an input label that is not NaN. */
  lemma NormalizeAllShape<T>(s: seq<T>, isNaN: T -> bool)
    ensures NaNTag in NormalizeAll(s, isNaN) <==> exists i :: 0 <= i < |s| && isNaN(s[i])
    ensures forall n :: n in NormalizeAll(s, isNaN) && n.Plain? ==> n.v in s && !isNaN(n.v)
  {
    var r := NormalizeAll(s, isNaN);
    if exists i :: 0 <= i < |s| && isNaN(s[i]) {
      var i :| 0 <= i < |s| && isNaN(s[i]);
      assert r[i] == NaNTag;
    }
  }
}
