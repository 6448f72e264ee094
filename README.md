# Flight-log ingestion and smoothing, modelled in Dafny

This project models the data pipeline of a small flight-log plotter. The
plotter reads a line-delimited JSON log written by a flight-control device.
Each line must carry a root `timestamp` string, in the form
`YYYY-MM-DD HH:MM:SS.ffffff`. The plotter appends ` +0000` and parses it as
UTC. Each line must also hold five string-encoded numbers:
`message.Altitude.{current,zero,delta}` and `message.Flight.{speed,speedAlarm}`.
The plotter builds six parallel series from the lines and smooths four of them
with a trailing moving average over a window of 5. It then hands four chart
panels to a renderer:
- the time axis, from the first timestamp to the last;
- for each line panel, a value range from the raw series' minimum and maximum
  folds;
- the smoothed lines, each smoothed value drawn at the last timestamp of its
  window;
- markers at every timestamp whose alarm flag, truncated to `i32`, equals 1.

Modules: two support modules (`Wrappers`, `Json`), then one per component of
`src/main.rs`:

- `Wrappers` (wrappers.dfy): `Option` and `Result`. `Result` works with `:-`,
  the way the source uses `?`.
- `Json` (json.dfy): the decoded document tree. Indexing follows serde_json: a
  missing key, or indexing something that is not an object, gives `Null`.
- `Record` (record.dfy): extracts one sample from one line. It also models the
  `as i32` narrowing of the alarm reading.
- `Series` (series.dfy): the loop over the log's lines. It grows six series and
  stops at the first bad line.
- `Smoothing` (smoothing.dfy): `moving_average` and what its output means.
- `Bounds` (bounds.dfy): `get_min_f64` and `get_max_f64`. They are folds seeded
  with infinities, which are modelled as the extended reals `Ext`.
- `Pipeline` (pipeline.dfy): the rest of `main`. It covers right alignment by
  zip, the alarm filter, the panel data and the whole run.

Foreign calls become function-typed parameters that may fail:
- `decode` stands for `serde_json::from_str`;
- `parseDate` stands for `DateTime::parse_from_str(text, format)`;
- `parseNum` stands for `str::parse::<f64>`.

The input is the sequence of lines already read from the file.

Behaviour of the code that the model keeps as written:
- Error reporting follows the code's messages. A missing reading, a non-string
  reading and an unparsable reading all produce the same message for that
  field ("Missing or invalid ..."). So there is one error
  `MissingOrInvalid(field)` per reading. A missing timestamp and a non-string
  timestamp are likewise one error, `MissingTimestamp`.
- The alarm filter keeps flags equal to 1. The flag is the parsed number
  truncated toward zero. So readings in [1, 2) raise the alarm, and 2.0 or 0.5
  do not (`Record.AlarmFlagIsOne`).
- There is no separate empty-input error. A log with fewer than five good
  lines, the empty log included, reaches `moving_average` with
  `data.len() < window_size`. There, `data.len() - window_size` underflows. The
  model reports this as `WindowTooLarge` (`Pipeline.Run`).
- The first panel's value range comes from the raw current altitude alone, yet
  the smoothed zero-altitude line is drawn in it too. The model proves that the
  smoothed current-altitude, relative-altitude and speed lines stay inside their
  panels' ranges. `Pipeline.ZeroLineMayLeavePanel` shows that the zero line
  need not.

## Model

| member | source | states |
|---|---|---|
| `Json.Index` | src/main.rs:39 | serde_json's `v[key]`. It is characterized by `LookupNull` and `LookupFound`: a missing key, or a node that is not an object, gives `Null`. |
| `Json.Lookup` | src/main.rs:50-73 | The chained `data[..][..][..]` indexing of each reading. It is characterized by `LookupNull`, `LookupAppend` and `LookupFound`. |
| `Json.AsStr` | src/main.rs:39 | `as_str()`: the text of a string node, and nothing otherwise. It is used by `ExtractSample` and characterized through `ExtractSampleSucceeds`/`ExtractSampleFails`. |
| `Json.LookupNull` | src/main.rs:50-53 | Indexing `Null` by any chain of keys gives `Null`. So a missing `message` or `Altitude` object makes every reading under it missing. |
| `Json.LookupAppend` | src/main.rs:50-73 | Chained indexing composes: looking up `p + q` is looking up `q` below the node found at `p`. |
| `Json.LookupFound` | src/main.rs:50-73 | A non-null node found along a path was reached through an object that really holds the first key. |
| `Record.ParseTimestamp` | src/main.rs:39-47 | The root timestamp with ` +0000` appended, parsed in the fixed format. It is characterized by `ExtractSampleSucceeds`/`ExtractSampleFails`. |
| `Record.ParseReading` | src/main.rs:50-73 | One reading: `as_str`, then `parse::<f64>`, then `ok_or` with that field's message. It is characterized by `ExtractSampleSucceeds`/`ExtractSampleFails`. |
| `Record.ExtractSample` | src/main.rs:39-73 | The sample of one decoded line, checked in source order. It is characterized by `ExtractSampleSucceeds`/`ExtractSampleFails`. |
| `Record.ParseLine` | src/main.rs:38-73 | Decoding one line, then extracting its sample; a line that is not JSON fails with `MalformedDocument`. It is characterized in `Series.BuildSeries` and `Pipeline.Run`, through `AllParse` and `FirstFailure`. |
| `Record.ExtractSampleSucceeds` | src/main.rs:38-73 | A decoded line yields a sample exactly when the root timestamp is a string that parses after ` +0000` is appended, and every reading is a string that parses. The sample holds the parsed values. |
| `Record.ExtractSampleFails` | src/main.rs:39-73 | Otherwise the error names the first failing check, in source order. A timestamp that is absent or not a string gives `MissingTimestamp`. One that does not parse gives `InvalidTimestamp`. Otherwise the error is `MissingOrInvalid(f)`, where `f` is the first reading (current, zero, delta, speed, speedAlarm) that is absent, not a string or unparsable. |
| `Record.ReadingsFromMessage` | src/main.rs:50-73 | All five readings sit under the root `message` key. Two documents with the same `message` subtree have the same reading texts. |
| `Record.NoMessageFails` | src/main.rs:50-53 | Without a `message` object no reading is present. A line with a good timestamp then fails with `MissingOrInvalid(CurrentAltitude)`. |
| `Record.Truncate` | src/main.rs:80 | The result is the integer nearest to the input on the side of zero (within 1 of it). |
| `Record.AsI32` | src/main.rs:80 | `as i32` truncates toward zero and saturates at the `i32` bounds. |
| `Record.AlarmFlagIsOne` | src/main.rs:163-167 | The stored flag equals 1 iff the reading lies in [1, 2). |
| `Series.Tabulate` | src/main.rs:26-31 | The six series have equal length, and row `k` of each is drawn from sample `k`. |
| `Series.BuildSeries` | src/main.rs:37-81 | Succeeds iff every line parses, and then yields exactly the series of the samples in log order. Otherwise it fails with the error of the first line that does not parse; every earlier line parses. The loop keeps all six series at equal length, and row `k` comes from line `k`. |
| `Smoothing.Sum` | src/main.rs:10 | `iter().sum()` over a window, as a left fold. It is characterized by `SumSnoc` and `SumBetween`. |
| `Smoothing.MovingAverage` | src/main.rs:7-14 | For `1 <= w <= len`, returns exactly `len - w + 1` values. Value `i` is the mean of `data[i..i+w]`. |
| `Smoothing.MovingAverageUnique` | src/main.rs:7-14 | The input and the window determine the smoothed series completely. |
| `Smoothing.WindowOneIsIdentity` | src/main.rs:9-11 | A window of 1 returns the input unchanged. |
| `Smoothing.SumSnoc` | src/main.rs:10 | Adding one more value to the sum adds that value. |
| `Smoothing.SumBetween` | src/main.rs:10 | If every value lies in `[lo, hi]`, the sum lies in `[n*lo, n*hi]`. |
| `Smoothing.MeanBetween` | src/main.rs:10-11 | A window's mean lies between any lower and upper bound of the window. |
| `Smoothing.SmoothedWithinRawBounds` | src/main.rs:99-109 | Every smoothed value lies between `get_min_f64` and `get_max_f64` of the raw series. |
| `Smoothing.SmoothingExample` | src/main.rs:7-14 | Altitudes 10..15 with window 5 smooth to `[12, 13]`. |
| `Smoothing.SmoothingExampleOnly` | src/main.rs:7-14 | Any moving average of that input is `[12, 13]`. |
| `Bounds.Lesser` | src/main.rs:17 | `f64::min` on non-NaN operands: one of the two operands, no greater than either. |
| `Bounds.Greater` | src/main.rs:22 | `f64::max` on non-NaN operands: one of the two operands, no smaller than either. |
| `Bounds.FoldMin` | src/main.rs:15-18 | The min fold is no greater than its seed or any value. It is the seed or one of the values. |
| `Bounds.FoldMax` | src/main.rs:20-23 | The max fold is no smaller than its seed or any value. It is the seed or one of the values. |
| `Bounds.GetMin` | src/main.rs:15-18 | Gives +∞ on no values. Otherwise it gives a value of the input that is `<=` every value. |
| `Bounds.GetMax` | src/main.rs:20-23 | Gives −∞ on no values. Otherwise it gives a value of the input that is `>=` every value. |
| `Bounds.MinBelowMax` | src/main.rs:15-23 | `min <= max` holds iff the input is non-empty. |
| `Bounds.BoundsExamples` | src/main.rs:15-23 | `[]` gives (+∞, −∞), `[5]` gives (5, 5) and `[3, -1, 2]` gives (−1, 3). |
| `Pipeline.Zip` | src/main.rs:107 | `iter().zip(..)`: pairs up to the shorter length. It is characterized by `Align`. |
| `Pipeline.Align` | src/main.rs:107 | `timestamps[w-1..]` zipped with `smoothed` has the shorter length. Pair `k` is `(timestamps[k+w-1], smoothed[k])`. |
| `Pipeline.AlignSmoothed` | src/main.rs:106-109 | When it aligns a moving average of a full series, the zip drops nothing: its length is `n - w + 1`. Point `k` is the mean of window `k` at the window's last timestamp. |
| `Pipeline.AlarmMarkers` | src/main.rs:163-167 | The `zip`/`filter(== 1)`/`map` chain of the alarm panel. It is characterized by `AlarmMarkersSelect` and `AlarmExample`. |
| `Pipeline.AlarmMarkersSelect` | src/main.rs:163-167 | The markers are the flagged timestamps and only those, in log order. A strictly increasing list of positions holds every position whose flag is 1 and no other, and marker `j` is at level 1.0 at the timestamp of position `j`. |
| `Pipeline.AlarmExample` | src/main.rs:163-167 | Flags 0, 1, 1 put markers at the second and third timestamps only. |
| `Pipeline.SmoothedLine` | src/main.rs:84-109 | One smoothed series, right-aligned. All its points lie within the raw series' bounds. |
| `Pipeline.Draw` | src/main.rs:83-168 | The panel data:<br>- the time axis runs from the first to the last timestamp in log order;<br>- each line panel's range comes from the raw series' min/max;<br>- the altitude panel has two lines, current then zero;<br>- each line is the right-aligned moving average of its series;<br>- the alarm panel has the fixed range [0, 2] and its markers;<br>- every plotted current-altitude, relative-altitude and speed point is inside its panel's range. |
| `Pipeline.ZeroLineMayLeavePanel` | src/main.rs:99-113 | The altitude panel's range can exclude the smoothed zero line. When every current altitude is 0 and every zero altitude is 10, the panel's top is 0. Every point of the zero line is at 10, so the line is not in range. |
| `Pipeline.Run` | src/main.rs:37-168 | Succeeds iff every line parses and there are at least 5 lines. It fails with `WindowTooLarge` iff every line parses but there are fewer than 5. Any other failure is the error of the first bad line. On success the figure depicts the samples in log order, and the in-range facts above hold. |

## Left out

- Opening the file and reading lines (src/main.rs:34-37) are I/O. The model starts from the sequence of lines, and read errors are not modelled.
- JSON text decoding, chrono's date validation and the `f64` text parser are foreign code. They are parameters (`Decoder`, `DateParser`, `NumberParser`) applied as the source applies them, including the ` +0000` suffix and the format string.
- Floating point: values are exact reals. There is no rounding in the sum or the division, and no NaN or infinite readings (`"NaN"` and `"inf"` parse as `f64` in the source). For the same reason, `f64::min`/`f64::max` on NaN and `NaN as i32 == 0` are not modelled.
- Smoothing.MovingAverage: requires `windowSize >= 1`. With a window of 0 the source divides by zero and returns `len + 1` NaN values, which exact reals cannot represent. The only call site passes 5.
- Smoothing.MovingAverage: requires `windowSize <= |data|`, where the source would underflow and panic. The whole run turns that case into an explicit `WindowTooLarge` error before smoothing.
- Rendering with plotters (backend, chart builder, captions, mesh, colours, marker size) and its errors are left out. Only the data handed to the renderer is modelled.
- plot_altitude.py is a separate script that mirrors the pipeline with numpy and matplotlib. It is not modelled. It differs from `src/main.rs` in several ways:
  - it computes relative altitude as `current - zero` instead of reading `delta`;
  - it reads current altitude, zero altitude and the alarm flag with `int(...)`, which rejects text such as `"12.5"` or `"1.0"`;
  - it parses the timestamp with `strptime` and appends no ` +0000`;
  - it also draws the raw series as faint lines;
  - it takes its value ranges from matplotlib's autoscaling, not from min/max folds;
  - it has no error messages of its own: a bad line raises `KeyError` or `ValueError`.
