/**
 * The ingestion loop: every line of the log becomes one entry in each of six
 * parallel series, in log order, and the first bad line stops the run.
 */
module Series {
  import opened Wrappers
  import opened Json
  import opened Record

  /** Every line of the log yields a sample. */
  predicate AllParse(lines: seq<string>, decode: Decoder, parseDate: DateParser, parseNum: NumberParser) {
    forall k :: 0 <= k < |lines| ==> ParseLine(lines[k], decode, parseDate, parseNum).Success?
  }

  /** Line `j` is the first that yields no sample, and it fails with `e`. */
  predicate FirstFailure(lines: seq<string>, j: int, e: Error, decode: Decoder, parseDate: DateParser, parseNum: NumberParser) {
    && 0 <= j < |lines|
    && ParseLine(lines[j], decode, parseDate, parseNum) == Failure(e)
    && forall k :: 0 <= k < j ==> ParseLine(lines[k], decode, parseDate, parseNum).Success?
  }

  /** The samples of a log whose every line parses, one per line. */
  function Samples(lines: seq<string>, decode: Decoder, parseDate: DateParser, parseNum: NumberParser): seq<Sample>
    requires AllParse(lines, decode, parseDate, parseNum)
  {
    seq(|lines|, k requires 0 <= k < |lines| => ParseLine(lines[k], decode, parseDate, parseNum).value)
  }

  /** The six series, index `k` of each drawn from the same sample. */
  datatype SeriesSet = SeriesSet(
    timestamps: seq<Instant>,
    currentAltitudes: seq<real>,
    zeroAltitudes: seq<real>,
    relativeAltitudes: seq<real>,
    speeds: seq<real>,
    speedAlarms: seq<int>)
  {
    predicate Aligned() {
      && |currentAltitudes| == |timestamps|
      && |zeroAltitudes| == |timestamps|
      && |relativeAltitudes| == |timestamps|
      && |speeds| == |timestamps|
      && |speedAlarms| == |timestamps|
    }

    /** Entry `k` of every series comes from sample `s`; the alarm is stored as `as i32`. */
    predicate RowIs(k: nat, s: Sample)
      requires Aligned() && k < |timestamps|
    {
      && timestamps[k] == s.timestamp
      && currentAltitudes[k] == s.currentAltitude
      && zeroAltitudes[k] == s.zeroAltitude
      && relativeAltitudes[k] == s.relativeAltitude
      && speeds[k] == s.speed
      && speedAlarms[k] == AsI32(s.speedAlarm)
    }
  }

  /** The series a sequence of samples spells out, one row per sample. */
  function Tabulate(samples: seq<Sample>): (s: SeriesSet)
    ensures s.Aligned() && |s.timestamps| == |samples|
    ensures forall k :: 0 <= k < |samples| ==> s.RowIs(k, samples[k])
  {
    SeriesSet(
      seq(|samples|, k requires 0 <= k < |samples| => samples[k].timestamp),
      seq(|samples|, k requires 0 <= k < |samples| => samples[k].currentAltitude),
      seq(|samples|, k requires 0 <= k < |samples| => samples[k].zeroAltitude),
      seq(|samples|, k requires 0 <= k < |samples| => samples[k].relativeAltitude),
      seq(|samples|, k requires 0 <= k < |samples| => samples[k].speed),
      seq(|samples|, k requires 0 <= k < |samples| => AsI32(samples[k].speedAlarm)))
  }

  /** Tabulating one more sample appends one entry to every series. */
  lemma TabulateSnoc(samples: seq<Sample>, x: Sample)
    ensures var t := Tabulate(samples);
      Tabulate(samples + [x]) == SeriesSet(
        t.timestamps + [x.timestamp],
        t.currentAltitudes + [x.currentAltitude],
        t.zeroAltitudes + [x.zeroAltitude],
        t.relativeAltitudes + [x.relativeAltitude],
        t.speeds + [x.speed],
        t.speedAlarms + [AsI32(x.speedAlarm)])
  {
    var t, u := Tabulate(samples), Tabulate(samples + [x]);
    assert u.timestamps == t.timestamps + [x.timestamp];
    assert u.currentAltitudes == t.currentAltitudes + [x.currentAltitude];
    assert u.zeroAltitudes == t.zeroAltitudes + [x.zeroAltitude];
    assert u.relativeAltitudes == t.relativeAltitudes + [x.relativeAltitude];
    assert u.speeds == t.speeds + [x.speed];
    assert u.speedAlarms == t.speedAlarms + [AsI32(x.speedAlarm)];
  }

  /** The samples of one more line are those of the shorter log and that line's sample. */
  lemma SamplesSnoc(lines: seq<string>, i: nat, decode: Decoder, parseDate: DateParser, parseNum: NumberParser)
    requires i < |lines| && AllParse(lines[..i], decode, parseDate, parseNum)
    requires ParseLine(lines[i], decode, parseDate, parseNum).Success?
    ensures AllParse(lines[..i + 1], decode, parseDate, parseNum)
    ensures Samples(lines[..i + 1], decode, parseDate, parseNum)
      == Samples(lines[..i], decode, parseDate, parseNum) + [ParseLine(lines[i], decode, parseDate, parseNum).value]
  {
    assert lines[..i + 1] == lines[..i] + [lines[i]];
  }

  /**
   * The loop of `main` over the log's lines. It succeeds exactly when every
   * line parses, and then row `k` of the series is line `k`'s sample; it fails
   * with the error of the first line that does not parse.
   */
  method BuildSeries(lines: seq<string>, decode: Decoder, parseDate: DateParser, parseNum: NumberParser)
    returns (r: Result<SeriesSet, Error>)
    ensures r.Success? <==> AllParse(lines, decode, parseDate, parseNum)
    ensures r.Success? ==> r.value == Tabulate(Samples(lines, decode, parseDate, parseNum))
    ensures r.Failure? ==> exists j :: FirstFailure(lines, j, r.error, decode, parseDate, parseNum)
  {
    var timestamps: seq<Instant> := [];
    var currentAltitudes: seq<real> := [];
    var zeroAltitudes: seq<real> := [];
    var relativeAltitudes: seq<real> := [];
    var speeds: seq<real> := [];
    var speedAlarms: seq<int> := [];
    var i := 0;
    while i < |lines|
      invariant 0 <= i <= |lines|
      invariant AllParse(lines[..i], decode, parseDate, parseNum)
      invariant SeriesSet(timestamps, currentAltitudes, zeroAltitudes, relativeAltitudes, speeds, speedAlarms)
        == Tabulate(Samples(lines[..i], decode, parseDate, parseNum))
    {
      assert forall k :: 0 <= k < i ==> lines[..i][k] == lines[k];
      var document := decode(lines[i]);
      if document.None? {
        assert FirstFailure(lines, i, MalformedDocument, decode, parseDate, parseNum);
        return Failure(MalformedDocument);
      }
      var data := document.value;
      var timestamp := ParseTimestamp(data, parseDate);
      if timestamp.Failure? {
        assert FirstFailure(lines, i, timestamp.error, decode, parseDate, parseNum);
        return Failure(timestamp.error);
      }
      // The timestamp is pushed before the readings are parsed; on every
      // path where that leaves the series unequal, the run returns at once.
      timestamps := timestamps + [timestamp.value];
      var current := ParseReading(data, CurrentAltitude, parseNum);
      if current.Failure? {
        assert FirstFailure(lines, i, current.error, decode, parseDate, parseNum);
        return Failure(current.error);
      }
      var zero := ParseReading(data, ZeroAltitude, parseNum);
      if zero.Failure? {
        assert FirstFailure(lines, i, zero.error, decode, parseDate, parseNum);
        return Failure(zero.error);
      }
      var relative := ParseReading(data, RelativeAltitude, parseNum);
      if relative.Failure? {
        assert FirstFailure(lines, i, relative.error, decode, parseDate, parseNum);
        return Failure(relative.error);
      }
      var speed := ParseReading(data, Speed, parseNum);
      if speed.Failure? {
        assert FirstFailure(lines, i, speed.error, decode, parseDate, parseNum);
        return Failure(speed.error);
      }
      var alarm := ParseReading(data, SpeedAlarm, parseNum);
      if alarm.Failure? {
        assert FirstFailure(lines, i, alarm.error, decode, parseDate, parseNum);
        return Failure(alarm.error);
      }
      currentAltitudes := currentAltitudes + [current.value];
      zeroAltitudes := zeroAltitudes + [zero.value];
      relativeAltitudes := relativeAltitudes + [relative.value];
      speeds := speeds + [speed.value];
      speedAlarms := speedAlarms + [AsI32(alarm.value)];
      var sample := Sample(timestamp.value, current.value, zero.value, relative.value, speed.value, alarm.value);
      assert ParseLine(lines[i], decode, parseDate, parseNum) == Success(sample);
      SamplesSnoc(lines, i, decode, parseDate, parseNum);
      TabulateSnoc(Samples(lines[..i], decode, parseDate, parseNum), sample);
      i := i + 1;
    }
    assert lines[..i] == lines;
    return Success(SeriesSet(timestamps, currentAltitudes, zeroAltitudes, relativeAltitudes, speeds, speedAlarms));
  }
}
