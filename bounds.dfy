/**
 * The axis-bound helpers: a minimum fold seeded with +infinity and a maximum
 * fold seeded with -infinity.
 */
module Bounds {

  /** A double restricted to non-NaN values: the reals extended with both infinities. */
  datatype Ext = NegInf | Fin(v: real) | PosInf

  predicate Le(a: Ext, b: Ext) {
    a.NegInf? || b.PosInf? || (a.Fin? && b.Fin? && a.v <= b.v)
  }

  /** `f64::min` on non-NaN operands. */
  function Lesser(a: Ext, b: Ext): (r: Ext)
    ensures Le(r, a) && Le(r, b)
    ensures r == a || r == b
  {
    if Le(a, b) then a else b
  }

  /** `f64::max` on non-NaN operands. */
  function Greater(a: Ext, b: Ext): (r: Ext)
    ensures Le(a, r) && Le(b, r)
    ensures r == a || r == b
  {
    if Le(a, b) then b else a
  }

  /** `values.iter().fold(acc, |a, &b| a.min(b))`. */
  function FoldMin(acc: Ext, values: seq<real>): (r: Ext)
    ensures Le(r, acc)
    ensures forall i :: 0 <= i < |values| ==> Le(r, Fin(values[i]))
    ensures r == acc || exists i :: 0 <= i < |values| && r == Fin(values[i])
    decreases |values|
  {
    if |values| == 0 then acc else FoldMin(Lesser(acc, Fin(values[0])), values[1..])
  }

  /** `values.iter().fold(acc, |a, &b| a.max(b))`. */
  function FoldMax(acc: Ext, values: seq<real>): (r: Ext)
    ensures Le(acc, r)
    ensures forall i :: 0 <= i < |values| ==> Le(Fin(values[i]), r)
    ensures r == acc || exists i :: 0 <= i < |values| && r == Fin(values[i])
    decreases |values|
  {
    if |values| == 0 then acc else FoldMax(Greater(acc, Fin(values[0])), values[1..])
  }

  /**
   * `get_min_f64`: +infinity for no values; otherwise one of the values that
   * is no greater than any of them.
   */
  function GetMin(values: seq<real>): (r: Ext)
    ensures |values| == 0 ==> r == PosInf
    ensures |values| > 0 ==> r.Fin? && exists i :: 0 <= i < |values| && r.v == values[i]
    ensures |values| > 0 ==> r.Fin? && forall i :: 0 <= i < |values| ==> r.v <= values[i]
  {
    FoldMin(PosInf, values)
  }

  /**
   * `get_max_f64`: -infinity for no values; otherwise one of the values that
   * is no smaller than any of them.
   */
  function GetMax(values: seq<real>): (r: Ext)
    ensures |values| == 0 ==> r == NegInf
    ensures |values| > 0 ==> r.Fin? && exists i :: 0 <= i < |values| && r.v == values[i]
    ensures |values| > 0 ==> r.Fin? && forall i :: 0 <= i < |values| ==> values[i] <= r.v
  {
    FoldMax(NegInf, values)
  }

  /** On any input the minimum does not exceed the maximum, except on the empty input. */
  lemma MinBelowMax(values: seq<real>)
    ensures |values| > 0 <==> Le(GetMin(values), GetMax(values))
  {
  }

  /** No values give the empty range; one value gives a point; 3, -1, 2 range from -1 to 3. */
  lemma BoundsExamples()
    ensures GetMin([]) == PosInf && GetMax([]) == NegInf
    ensures GetMin([5.0]) == Fin(5.0) && GetMax([5.0]) == Fin(5.0)
    ensures GetMin([3.0, -1.0, 2.0]) == Fin(-1.0) && GetMax([3.0, -1.0, 2.0]) == Fin(3.0)
  {
  }
}
