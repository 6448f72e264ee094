/**
 * What `main` hands to the chart renderer once the log is read: the time
 * axis, each panel's value range, the smoothed lines right-aligned against the
 * timestamps, and the alarm markers.
 */
module Pipeline {
  import opened Wrappers
  import opened Record
  import opened Series
  import opened Smoothing
  import opened Bounds

  /** The smoothing window `main` uses. */
  const WindowSize: nat := 5

  /** The fixed value range of the alarm panel, and the height every marker is drawn at. */
  const AlarmLow: real := 0.0
  const AlarmHigh: real := 2.0
  const MarkerLevel: real := 1.0

  type Point = (Instant, real)

  /** `a.iter().zip(b.iter())`: pairs up to the shorter of the two. */
  function Zip<A, B>(a: seq<A>, b: seq<B>): seq<(A, B)> {
    seq(if |a| <= |b| then |a| else |b|, k requires 0 <= k < |a| && k < |b| => (a[k], b[k]))
  }

  /**
   * `timestamps[w-1..].iter().zip(smoothed.iter())`: smoothed value `k` is
   * drawn at timestamp `k + w - 1`, the last one of its window.
   */
  function Align(timestamps: seq<Instant>, smoothed: seq<real>, w: nat): (r: seq<Point>)
    requires 1 <= w <= |timestamps| + 1
    ensures |r| == if |timestamps| - w + 1 <= |smoothed| then |timestamps| - w + 1 else |smoothed|
    ensures forall k :: 0 <= k < |r| ==> r[k] == (timestamps[k + w - 1], smoothed[k])
  {
    Zip(timestamps[w - 1..], smoothed)
  }

  /**
   * A smoothed series over the whole time axis keeps every one of its points:
   * point `k` is the mean of window `k` at the window's last timestamp.
   */
  lemma AlignSmoothed(timestamps: seq<Instant>, data: seq<real>, w: nat, smoothed: seq<real>)
    requires |data| == |timestamps| && IsMovingAverage(data, w, smoothed)
    ensures |Align(timestamps, smoothed, w)| == |smoothed| == |timestamps| - w + 1
    ensures forall k :: 0 <= k < |smoothed| ==>
      Align(timestamps, smoothed, w)[k] == (timestamps[k + w - 1], Mean(data[k..k + w]))
  {
  }

  /**
   * `speed_alarms.iter().zip(timestamps.iter()).filter(|(a, _)| **a == 1)`:
   * a marker at level 1 for each flagged timestamp.
   */
  function AlarmMarkers(alarms: seq<int>, timestamps: seq<Instant>): seq<Point>
    decreases |alarms|
  {
    if |alarms| == 0 || |timestamps| == 0 then
      []
    else
      var head := if alarms[0] == 1 then [(timestamps[0], MarkerLevel)] else [];
      head + AlarmMarkers(alarms[1..], timestamps[1..])
  }

  /** Marker `j` is the timestamp at `positions[j]`, a position flagged 1 in both series. */
  predicate Picks(positions: seq<nat>, alarms: seq<int>, timestamps: seq<Instant>, markers: seq<Point>) {
    && |positions| == |markers|
    && forall j :: 0 <= j < |positions| ==>
         positions[j] < |alarms| && positions[j] < |timestamps| && alarms[positions[j]] == 1
         && markers[j] == (timestamps[positions[j]], MarkerLevel)
  }

  predicate Increasing(positions: seq<nat>) {
    forall j, l :: 0 <= j < l < |positions| ==> positions[j] < positions[l]
  }

  /** Every position flagged 1, within both series, is listed. */
  predicate Covers(positions: seq<nat>, alarms: seq<int>, timestamps: seq<Instant>) {
    forall k :: 0 <= k < |alarms| && k < |timestamps| && alarms[k] == 1 ==> k in positions
  }

  /**
   * `positions` lists, in strictly increasing order, exactly the positions
   * (within both series) whose flag is 1, and marker `j` sits at the
   * timestamp of position `j`.
   */
  predicate Selects(positions: seq<nat>, alarms: seq<int>, timestamps: seq<Instant>, markers: seq<Point>) {
    Picks(positions, alarms, timestamps, markers) && Increasing(positions) && Covers(positions, alarms, timestamps)
  }

  /** Every position moved one further along. */
  function Shift(positions: seq<nat>): (r: seq<nat>)
    ensures |r| == |positions| && forall j :: 0 <= j < |r| ==> r[j] == positions[j] + 1
  {
    seq(|positions|, j requires 0 <= j < |positions| => positions[j] + 1)
  }

  lemma PicksShift(rest: seq<nat>, alarms: seq<int>, timestamps: seq<Instant>, tail: seq<Point>)
    requires |alarms| > 0 && |timestamps| > 0
    requires Picks(rest, alarms[1..], timestamps[1..], tail)
    ensures Picks(Shift(rest), alarms, timestamps, tail)
  {
  }

  lemma PicksCons(shifted: seq<nat>, alarms: seq<int>, timestamps: seq<Instant>, tail: seq<Point>)
    requires |alarms| > 0 && |timestamps| > 0 && alarms[0] == 1
    requires Picks(shifted, alarms, timestamps, tail)
    ensures Picks([0] + shifted, alarms, timestamps, [(timestamps[0], MarkerLevel)] + tail)
  {
  }

  lemma IncreasingShift(rest: seq<nat>)
    requires Increasing(rest)
    ensures Increasing(Shift(rest)) && Increasing([0] + Shift(rest))
  {
  }

  lemma CoversShift(rest: seq<nat>, alarms: seq<int>, timestamps: seq<Instant>)
    requires |alarms| > 0 && |timestamps| > 0
    requires Covers(rest, alarms[1..], timestamps[1..])
    ensures alarms[0] != 1 ==> Covers(Shift(rest), alarms, timestamps)
    ensures Covers([0] + Shift(rest), alarms, timestamps)
  {
  }

  /** The markers are exactly the flagged timestamps, in log order. */
  lemma {:induction false} AlarmMarkersSelect(alarms: seq<int>, timestamps: seq<Instant>)
    returns (positions: seq<nat>)
    ensures Selects(positions, alarms, timestamps, AlarmMarkers(alarms, timestamps))
    decreases |alarms|
  {
    if |alarms| == 0 || |timestamps| == 0 {
      return [];
    }
    var rest := AlarmMarkersSelect(alarms[1..], timestamps[1..]);
    var tail := AlarmMarkers(alarms[1..], timestamps[1..]);
    PicksShift(rest, alarms, timestamps, tail);
    IncreasingShift(rest);
    CoversShift(rest, alarms, timestamps);
    if alarms[0] == 1 {
      PicksCons(Shift(rest), alarms, timestamps, tail);
      positions := [0] + Shift(rest);
      assert AlarmMarkers(alarms, timestamps) == [(timestamps[0], MarkerLevel)] + tail;
    } else {
      positions := Shift(rest);
      var none: seq<Point> := [];
      assert AlarmMarkers(alarms, timestamps) == none + tail;
      assert none + tail == tail;
    }
  }

  /** One line chart: its value range and the lines drawn in it. */
  datatype LinePanel = LinePanel(low: Ext, high: Ext, lines: seq<seq<Point>>)

  /** Everything the four panels are drawn from. */
  datatype Figure = Figure(
    first: Instant,              // `timestamps[0]`, the left end of every time axis
    last: Instant,               // `timestamps[timestamps.len() - 1]`, the right end
    altitude: LinePanel,         // smoothed current and zero altitude, ranged on raw current altitude
    relative: LinePanel,         // smoothed relative altitude
    speed: LinePanel,            // smoothed speed
    alarmLow: real,
    alarmHigh: real,
    alarms: seq<Point>)

  /** `line` draws the right-aligned moving average of `data` against `timestamps`. */
  predicate Smooths(line: seq<Point>, timestamps: seq<Instant>, data: seq<real>)
    requires |data| == |timestamps| >= WindowSize
  {
    && |line| == |data| - WindowSize + 1
    && forall k :: 0 <= k < |line| ==>
         line[k] == (timestamps[k + WindowSize - 1], Mean(data[k..k + WindowSize]))
  }

  /** Every point of every line of `panel` lies in its value range. */
  predicate InRange(panel: LinePanel, line: nat)
    requires line < |panel.lines|
  {
    forall k :: 0 <= k < |panel.lines[line]| ==>
      Le(panel.low, Fin(panel.lines[line][k].1)) && Le(Fin(panel.lines[line][k].1), panel.high)
  }

  /** The figure drawn from an aligned set of series holding at least one window. */
  predicate Depicts(fig: Figure, s: SeriesSet)
    requires s.Aligned() && |s.timestamps| >= WindowSize
  {
    var n := |s.timestamps|;
    && fig.first == s.timestamps[0] && fig.last == s.timestamps[n - 1]
    && fig.altitude.low == GetMin(s.currentAltitudes) && fig.altitude.high == GetMax(s.currentAltitudes)
    && |fig.altitude.lines| == 2
    && Smooths(fig.altitude.lines[0], s.timestamps, s.currentAltitudes)
    && Smooths(fig.altitude.lines[1], s.timestamps, s.zeroAltitudes)
    && fig.relative.low == GetMin(s.relativeAltitudes) && fig.relative.high == GetMax(s.relativeAltitudes)
    && |fig.relative.lines| == 1
    && Smooths(fig.relative.lines[0], s.timestamps, s.relativeAltitudes)
    && fig.speed.low == GetMin(s.speeds) && fig.speed.high == GetMax(s.speeds)
    && |fig.speed.lines| == 1
    && Smooths(fig.speed.lines[0], s.timestamps, s.speeds)
    && fig.alarmLow == AlarmLow && fig.alarmHigh == AlarmHigh
    && fig.alarms == AlarmMarkers(s.speedAlarms, s.timestamps)
  }

  /** The smoothed line of one series together with its raw bounds. */
  method SmoothedLine(timestamps: seq<Instant>, data: seq<real>) returns (line: seq<Point>)
    requires |data| == |timestamps| >= WindowSize
    ensures Smooths(line, timestamps, data)
    ensures forall k :: 0 <= k < |line| ==>
      Le(GetMin(data), Fin(line[k].1)) && Le(Fin(line[k].1), GetMax(data))
  {
    var smoothed := MovingAverage(data, WindowSize);
    AlignSmoothed(timestamps, data, WindowSize, smoothed);
    SmoothedWithinRawBounds(data, WindowSize, smoothed);
    line := Align(timestamps, smoothed, WindowSize);
  }

  /**
   * The four panels of `main` drawn from a set of series holding at least one
   * window; every smoothed current-altitude, relative-altitude and speed
   * point lies inside its panel's value range.
   */
  method Draw(s: SeriesSet) returns (fig: Figure)
    requires s.Aligned() && |s.timestamps| >= WindowSize
    ensures Depicts(fig, s)
    ensures InRange(fig.altitude, 0) && InRange(fig.relative, 0) && InRange(fig.speed, 0)
  {
    var n := |s.timestamps|;
    var current := SmoothedLine(s.timestamps, s.currentAltitudes);
    var zero := SmoothedLine(s.timestamps, s.zeroAltitudes);
    var relative := SmoothedLine(s.timestamps, s.relativeAltitudes);
    var speed := SmoothedLine(s.timestamps, s.speeds);
    fig := Figure(
      s.timestamps[0], s.timestamps[n - 1],
      LinePanel(GetMin(s.currentAltitudes), GetMax(s.currentAltitudes), [current, zero]),
      LinePanel(GetMin(s.relativeAltitudes), GetMax(s.relativeAltitudes), [relative]),
      LinePanel(GetMin(s.speeds), GetMax(s.speeds), [speed]),
      AlarmLow, AlarmHigh,
      AlarmMarkers(s.speedAlarms, s.timestamps));
  }

  /**
   * `main` from the first line read to the last series handed to the
   * renderer. It succeeds exactly when every line parses and there are at
   * least `WindowSize` of them; a bad line stops it with that line's error,
   * a short log with `WindowTooLarge`. On success the figure is drawn from
   * the samples in log order, and every smoothed current-altitude,
   * relative-altitude and speed point lies inside its panel's value range.
   */
  method Run(lines: seq<string>, decode: Decoder, parseDate: DateParser, parseNum: NumberParser)
    returns (r: Result<Figure, Error>)
    ensures r.Success? <==> AllParse(lines, decode, parseDate, parseNum) && WindowSize <= |lines|
    ensures r == Failure(WindowTooLarge) <==>
      AllParse(lines, decode, parseDate, parseNum) && |lines| < WindowSize
    ensures r.Failure? && r.error != WindowTooLarge ==>
      exists j :: FirstFailure(lines, j, r.error, decode, parseDate, parseNum)
    ensures r.Success? ==>
      AllParse(lines, decode, parseDate, parseNum)
      && Depicts(r.value, Tabulate(Samples(lines, decode, parseDate, parseNum)))
    ensures r.Success? ==>
      InRange(r.value.altitude, 0) && InRange(r.value.relative, 0) && InRange(r.value.speed, 0)
  {
    var built := BuildSeries(lines, decode, parseDate, parseNum);
    if built.Failure? {
      var j :| FirstFailure(lines, j, built.error, decode, parseDate, parseNum);
      if decode(lines[j]).Some? {
        ExtractSampleFails(decode(lines[j]).value, parseDate, parseNum);
      }
      return Failure(built.error);
    }
    if |built.value.timestamps| < WindowSize {
      // `data.len() - window_size` would underflow in the first smoothing call.
      return Failure(WindowTooLarge);
    }
    var fig := Draw(built.value);
    return Success(fig);
  }

  /**
   * The altitude panel's range comes from the raw current altitude alone, so
   * the smoothed zero-altitude line drawn in it can leave it: when every
   * current altitude is 0 and every zero altitude 10, the panel tops out at 0
   * while every point of the zero line sits at 10.
   */
  lemma ZeroLineMayLeavePanel(s: SeriesSet, fig: Figure)
    requires s.Aligned() && |s.timestamps| >= WindowSize
    requires forall k :: 0 <= k < |s.timestamps| ==> s.currentAltitudes[k] == 0.0
    requires forall k :: 0 <= k < |s.timestamps| ==> s.zeroAltitudes[k] == 10.0
    requires Depicts(fig, s)
    ensures fig.altitude.high == Fin(0.0)
    ensures forall k :: 0 <= k < |fig.altitude.lines[1]| ==> fig.altitude.lines[1][k].1 == 10.0
    ensures !InRange(fig.altitude, 1)
  {
    var line := fig.altitude.lines[1];
    forall k | 0 <= k < |line|
      ensures line[k].1 == 10.0
    {
      var window := s.zeroAltitudes[k..k + WindowSize];
      MeanBetween(window, 10.0, 10.0);
    }
    assert line[0].1 == 10.0;
  }

  /** Alarm flags 0, 1, 1 put markers at the second and third timestamps only. */
  lemma AlarmExample(t1: Instant, t2: Instant, t3: Instant)
    ensures AlarmMarkers([0, 1, 1], [t1, t2, t3]) == [(t2, MarkerLevel), (t3, MarkerLevel)]
  {
  }
}
