/**
 * Extraction of one flight sample from one log line: the JSON document must
 * carry a root `timestamp` string that parses in a fixed UTC format, and five
 * string-encoded numbers under `message.Altitude` and `message.Flight`.
 */
module Record {
  import opened Wrappers
  import opened Json

  /** An instant in UTC, in nanoseconds since the Unix epoch (chrono's `DateTime<Utc>`). */
  datatype Instant = Instant(nanos: int)

  /** `serde_json::from_str`: decodes one line, or fails. */
  type Decoder = string -> Option<Value>

  /** `DateTime::parse_from_str(text, format)`, already converted to UTC. */
  type DateParser = (string, string) -> Option<Instant>

  /** `str::parse::<f64>`, with exact reals in place of doubles. */
  type NumberParser = string -> Option<real>

  /** The zero offset appended to every timestamp before it is parsed. */
  const UtcSuffix: string := " +0000"

  /** The format the suffixed timestamp must match. */
  const TimestampFormat: string := "%Y-%m-%d %H:%M:%S.%f %z"

  /** The five numeric readings of a line, in the order they are extracted. */
  datatype Field = CurrentAltitude | ZeroAltitude | RelativeAltitude | Speed | SpeedAlarm

  /** Where each reading sits in the document. */
  function Path(f: Field): seq<string> {
    match f
    case CurrentAltitude => ["message", "Altitude", "current"]
    case ZeroAltitude => ["message", "Altitude", "zero"]
    case RelativeAltitude => ["message", "Altitude", "delta"]
    case Speed => ["message", "Flight", "speed"]
    case SpeedAlarm => ["message", "Flight", "speedAlarm"]
  }

  /**
   * Every way a run stops. The source reports a missing, non-string or
   * unparsable reading with one message per field, so one constructor covers
   * all three.
   */
  datatype Error =
    | MalformedDocument          // the line is not JSON
    | MissingTimestamp           // no string at the root key `timestamp`
    | InvalidTimestamp           // the timestamp does not match the format
    | MissingOrInvalid(field: Field)
    | WindowTooLarge             // fewer samples than the smoothing window

  /** One fully parsed log record; `speedAlarm` keeps the parsed number. */
  datatype Sample = Sample(
    timestamp: Instant,
    currentAltitude: real,
    zeroAltitude: real,
    relativeAltitude: real,
    speed: real,
    speedAlarm: real)

  function Reading(s: Sample, f: Field): real {
    match f
    case CurrentAltitude => s.currentAltitude
    case ZeroAltitude => s.zeroAltitude
    case RelativeAltitude => s.relativeAltitude
    case Speed => s.speed
    case SpeedAlarm => s.speedAlarm
  }

  function TimestampText(v: Value): Option<string> {
    AsStr(Index(v, "timestamp"))
  }

  function ReadingText(v: Value, f: Field): Option<string> {
    AsStr(Lookup(v, Path(f)))
  }

  predicate TimestampValid(v: Value, parseDate: DateParser) {
    TimestampText(v).Some? && parseDate(TimestampText(v).value + UtcSuffix, TimestampFormat).Some?
  }

  predicate ReadingValid(v: Value, f: Field, parseNum: NumberParser) {
    ReadingText(v, f).Some? && parseNum(ReadingText(v, f).value).Some?
  }

  /** The root timestamp, suffixed with the zero offset and parsed. */
  function ParseTimestamp(v: Value, parseDate: DateParser): Result<Instant, Error> {
    match TimestampText(v)
    case None => Failure(MissingTimestamp)
    case Some(text) =>
      match parseDate(text + UtcSuffix, TimestampFormat)
      case None => Failure(InvalidTimestamp)
      case Some(t) => Success(t)
  }

  /** `.as_str().and_then(|s| s.parse::<f64>().ok()).ok_or(..)` on one reading. */
  function ParseReading(v: Value, f: Field, parseNum: NumberParser): Result<real, Error> {
    match ReadingText(v, f)
    case None => Failure(MissingOrInvalid(f))
    case Some(text) =>
      match parseNum(text)
      case None => Failure(MissingOrInvalid(f))
      case Some(x) => Success(x)
  }

  /** The sample a decoded line holds, extracted in source order; the first failing check stops it. */
  function ExtractSample(v: Value, parseDate: DateParser, parseNum: NumberParser): Result<Sample, Error> {
    var timestamp :- ParseTimestamp(v, parseDate);
    var current :- ParseReading(v, CurrentAltitude, parseNum);
    var zero :- ParseReading(v, ZeroAltitude, parseNum);
    var relative :- ParseReading(v, RelativeAltitude, parseNum);
    var speed :- ParseReading(v, Speed, parseNum);
    var alarm :- ParseReading(v, SpeedAlarm, parseNum);
    Success(Sample(timestamp, current, zero, relative, speed, alarm))
  }

  /**
   * A decoded line yields a sample exactly when its timestamp and all five
   * readings are present strings that parse, and the sample holds the parsed
   * values.
   */
  lemma ExtractSampleSucceeds(v: Value, parseDate: DateParser, parseNum: NumberParser)
    ensures var r := ExtractSample(v, parseDate, parseNum);
      && (r.Success? <==> TimestampValid(v, parseDate) && forall f :: ReadingValid(v, f, parseNum))
      && (r.Success? ==>
            r.value.timestamp == parseDate(TimestampText(v).value + UtcSuffix, TimestampFormat).value)
      && (r.Success? ==> forall f :: (ReadingValid(v, f, parseNum) &&
            Reading(r.value, f) == parseNum(ReadingText(v, f).value).value))
  {
    var r := ExtractSample(v, parseDate, parseNum);
    if r.Success? {
      forall f ensures ReadingValid(v, f, parseNum) && Reading(r.value, f) == parseNum(ReadingText(v, f).value).value {
        match f
        case CurrentAltitude =>
        case ZeroAltitude =>
        case RelativeAltitude =>
        case Speed =>
        case SpeedAlarm =>
      }
    }
    if TimestampValid(v, parseDate) && forall f :: ReadingValid(v, f, parseNum) {
      assert ReadingValid(v, CurrentAltitude, parseNum) && ReadingValid(v, ZeroAltitude, parseNum);
      assert ReadingValid(v, RelativeAltitude, parseNum) && ReadingValid(v, Speed, parseNum);
      assert ReadingValid(v, SpeedAlarm, parseNum);
    }
  }

  /**
   * A decoded line that yields no sample fails with the first check, in
   * source order, that does not pass: the timestamp's presence, its format,
   * then each reading in turn.
   */
  lemma ExtractSampleFails(v: Value, parseDate: DateParser, parseNum: NumberParser)
    ensures var r := ExtractSample(v, parseDate, parseNum);
      var ts := TimestampValid(v, parseDate);
      var current := ReadingValid(v, CurrentAltitude, parseNum);
      var zero := ReadingValid(v, ZeroAltitude, parseNum);
      var relative := ReadingValid(v, RelativeAltitude, parseNum);
      var speed := ReadingValid(v, Speed, parseNum);
      var alarm := ReadingValid(v, SpeedAlarm, parseNum);
      && (r == Failure(MissingTimestamp) <==> TimestampText(v).None?)
      && (r == Failure(InvalidTimestamp) <==> TimestampText(v).Some? && !ts)
      && (r == Failure(MissingOrInvalid(CurrentAltitude)) <==> ts && !current)
      && (r == Failure(MissingOrInvalid(ZeroAltitude)) <==> ts && current && !zero)
      && (r == Failure(MissingOrInvalid(RelativeAltitude)) <==> ts && current && zero && !relative)
      && (r == Failure(MissingOrInvalid(Speed)) <==> ts && current && zero && relative && !speed)
      && (r == Failure(MissingOrInvalid(SpeedAlarm)) <==> ts && current && zero && relative && speed && !alarm)
      && r != Failure(MalformedDocument) && r != Failure(WindowTooLarge)
  {
  }

  /**
   * The five readings sit under the root key `message`: two documents with
   * the same `message` subtree hold the same reading texts.
   */
  lemma ReadingsFromMessage(v: Value, w: Value, f: Field)
    requires Index(v, "message") == Index(w, "message")
    ensures ReadingText(v, f) == ReadingText(w, f)
  {
    assert Path(f) == ["message"] + Path(f)[1..];
    LookupAppend(v, ["message"], Path(f)[1..]);
    LookupAppend(w, ["message"], Path(f)[1..]);
  }

  /**
   * Without a `message` object (absent, or not an object) no reading is
   * present, so a line with a good timestamp fails on its first reading, the
   * current altitude.
   */
  lemma NoMessageFails(v: Value, parseDate: DateParser, parseNum: NumberParser)
    requires !Index(v, "message").Object?
    ensures forall f :: ReadingText(v, f).None?
    ensures TimestampValid(v, parseDate) ==>
      ExtractSample(v, parseDate, parseNum) == Failure(MissingOrInvalid(CurrentAltitude))
  {
    forall f ensures ReadingText(v, f).None? {
      var path := Path(f);
      if Lookup(v, path) != Null {
        LookupFound(v, path);
        LookupFound(Index(v, path[0]), path[1..]);
      }
    }
    assert ReadingText(v, CurrentAltitude).None?;
  }

  /** One raw log line: decode it, then extract its sample. */
  function ParseLine(line: string, decode: Decoder, parseDate: DateParser, parseNum: NumberParser)
    : Result<Sample, Error>
  {
    match decode(line)
    case None => Failure(MalformedDocument)
    case Some(v) => ExtractSample(v, parseDate, parseNum)
  }

  const I32Min: int := -0x8000_0000
  const I32Max: int := 0x7fff_ffff

  /** Rounding toward zero. */
  function Truncate(x: real): (t: int)
    ensures 0.0 <= x ==> t as real <= x < t as real + 1.0
    ensures x < 0.0 ==> t as real - 1.0 < x <= t as real
  {
    if x >= 0.0 then x.Floor else -((-x).Floor)
  }

  /** `x as i32`: truncation toward zero, saturating at the bounds of `i32`. */
  function AsI32(x: real): (n: int)
    ensures I32Min <= n <= I32Max
    ensures I32Min <= Truncate(x) <= I32Max ==> n == Truncate(x)
    ensures Truncate(x) < I32Min ==> n == I32Min
    ensures I32Max < Truncate(x) ==> n == I32Max
  {
    var t := Truncate(x);
    if t < I32Min then I32Min else if t > I32Max then I32Max else t
  }

  /** The stored alarm flag is 1 exactly for readings in [1, 2): 1.9 raises the alarm, 0.9 and 2.0 do not. */
  lemma AlarmFlagIsOne(x: real)
    ensures AsI32(x) == 1 <==> 1.0 <= x < 2.0
  {
  }
}
