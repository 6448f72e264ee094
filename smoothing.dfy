/**
 * The trailing moving average: output `i` is the mean of the `w` inputs
 * starting at `i`, so a series of `n` values smooths to `n - w + 1` values.
 */
module Smoothing {
  import opened Bounds

  /** `iter().sum()`, accumulated left to right. */
  function Sum(s: seq<real>): real {
    if |s| == 0 then 0.0 else Sum(s[..|s| - 1]) + s[|s| - 1]
  }

  /** The arithmetic mean, divided by the exact element count. */
  function Mean(s: seq<real>): real
    requires |s| > 0
  {
    Sum(s) / (|s| as real)
  }

  /** `r` is the trailing moving average of `data` with window `w`. */
  predicate IsMovingAverage(data: seq<real>, w: nat, r: seq<real>) {
    && 1 <= w <= |data|
    && |r| == |data| - w + 1
    && forall i :: 0 <= i < |r| ==> r[i] == Mean(data[i..i + w])
  }

  /** `moving_average`: one window mean for every start index `0..=data.len() - window_size`. */
  method MovingAverage(data: seq<real>, windowSize: nat) returns (result: seq<real>)
    requires 1 <= windowSize <= |data|
    ensures IsMovingAverage(data, windowSize, result)
  {
    result := [];
    var i := 0;
    while i <= |data| - windowSize
      invariant 0 <= i <= |data| - windowSize + 1
      invariant |result| == i
      invariant forall k :: 0 <= k < i ==> result[k] == Mean(data[k..k + windowSize])
    {
      var sum := Sum(data[i..i + windowSize]);
      result := result + [sum / windowSize as real];
      i := i + 1;
    }
  }

  /** The series and the window determine the smoothed series completely. */
  lemma MovingAverageUnique(data: seq<real>, w: nat, r1: seq<real>, r2: seq<real>)
    requires IsMovingAverage(data, w, r1) && IsMovingAverage(data, w, r2)
    ensures r1 == r2
  {
  }

  /** A window of one reproduces the input. */
  lemma WindowOneIsIdentity(data: seq<real>, r: seq<real>)
    requires IsMovingAverage(data, 1, r)
    ensures r == data
  {
    forall i | 0 <= i < |r|
      ensures r[i] == data[i]
    {
      var window := data[i..i + 1];
      assert window[..0] == [];
      assert Sum(window) == window[0] == data[i];
    }
  }

  /** Every value of `s` at least `lo` makes the sum at least `|s| * lo`; likewise at most `hi`. */
  lemma {:induction false} SumBetween(s: seq<real>, lo: real, hi: real)
    requires forall i :: 0 <= i < |s| ==> lo <= s[i] <= hi
    ensures (|s| as real) * lo <= Sum(s) <= (|s| as real) * hi
  {
    if |s| > 0 {
      var init := s[..|s| - 1];
      assert forall i :: 0 <= i < |init| ==> init[i] == s[i];
      SumBetween(init, lo, hi);
    }
  }

  /** A mean lies between any lower and upper bound of the values averaged. */
  lemma MeanBetween(s: seq<real>, lo: real, hi: real)
    requires |s| > 0
    requires forall i :: 0 <= i < |s| ==> lo <= s[i] <= hi
    ensures lo <= Mean(s) <= hi
  {
    SumBetween(s, lo, hi);
    var n := |s| as real;
    assert Mean(s) * n == Sum(s);
  }

  /**
   * Every smoothed value lies within the bounds of the raw series, so an
   * axis range computed from the raw series shows the whole smoothed line.
   */
  lemma SmoothedWithinRawBounds(data: seq<real>, w: nat, r: seq<real>)
    requires IsMovingAverage(data, w, r)
    ensures forall k :: 0 <= k < |r| ==> Le(GetMin(data), Fin(r[k])) && Le(Fin(r[k]), GetMax(data))
  {
    var lo, hi := GetMin(data).v, GetMax(data).v;
    forall k | 0 <= k < |r|
      ensures lo <= r[k] <= hi
    {
      var window := data[k..k + w];
      assert forall i :: 0 <= i < |window| ==> window[i] == data[k + i];
      MeanBetween(window, lo, hi);
    }
  }

  /** Appending one value adds it to the sum. */
  lemma SumSnoc(s: seq<real>, x: real)
    ensures Sum(s + [x]) == Sum(s) + x
  {
    assert (s + [x])[..|s|] == s;
  }

  /** Altitudes 10 through 15 with a window of five smooth to 12 and 13. */
  lemma SmoothingExample()
    ensures IsMovingAverage([10.0, 11.0, 12.0, 13.0, 14.0, 15.0], 5, [12.0, 13.0])
  {
    var data := [10.0, 11.0, 12.0, 13.0, 14.0, 15.0];
    SumSnoc([], 10.0);
    assert [] + [10.0] == [10.0];
    SumSnoc([10.0], 11.0);
    assert [10.0] + [11.0] == [10.0, 11.0];
    SumSnoc([10.0, 11.0], 12.0);
    assert [10.0, 11.0] + [12.0] == [10.0, 11.0, 12.0];
    SumSnoc([10.0, 11.0, 12.0], 13.0);
    assert [10.0, 11.0, 12.0] + [13.0] == [10.0, 11.0, 12.0, 13.0];
    SumSnoc([10.0, 11.0, 12.0, 13.0], 14.0);
    SumSnoc([], 11.0);
    assert [] + [11.0] == [11.0];
    SumSnoc([11.0], 12.0);
    assert [11.0] + [12.0] == [11.0, 12.0];
    SumSnoc([11.0, 12.0], 13.0);
    assert [11.0, 12.0] + [13.0] == [11.0, 12.0, 13.0];
    SumSnoc([11.0, 12.0, 13.0], 14.0);
    assert [11.0, 12.0, 13.0] + [14.0] == [11.0, 12.0, 13.0, 14.0];
    SumSnoc([11.0, 12.0, 13.0, 14.0], 15.0);
    assert [10.0, 11.0, 12.0, 13.0] + [14.0] == data[0..5];
    assert [11.0, 12.0, 13.0, 14.0] + [15.0] == data[1..6];
    assert Sum(data[0..5]) == 60.0;
    assert Sum(data[1..6]) == 65.0;
  }

  /** ... and to nothing else: any moving average of that input is `[12, 13]`. */
  lemma SmoothingExampleOnly(r: seq<real>)
    requires IsMovingAverage([10.0, 11.0, 12.0, 13.0, 14.0, 15.0], 5, r)
    ensures r == [12.0, 13.0]
  {
    SmoothingExample();
    MovingAverageUnique([10.0, 11.0, 12.0, 13.0, 14.0, 15.0], 5, r, [12.0, 13.0]);
  }
}
