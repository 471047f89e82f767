/** Historical aggregation: the two data frames loaded once at start-up
    (temperatures; CO2 and humidity together), the fallback frames used when
    loading fails, and the reduction of their columns to one mean reading for
    classroom 9b. */
module History {
  import opened Results

  /** A column as pandas holds it: numeric samples, or values that cannot be averaged. */
  datatype Column = Numeric(samples: seq<real>) | NonNumeric

  /** A loaded data frame: column name to column. The time column is parsed on
      load and not used afterwards, so it is not part of the model. */
  type Frame = map<string, Column>

  /** What reading the two CSV files produced: both frames, or a failure of any
      kind (missing file, unparseable time column, I/O error). */
  datatype LoadOutcome = Loaded(temperatureFrame: Frame, co2Frame: Frame) | LoadFailed

  /** The single-row frames substituted when loading fails. */
  const DefaultTemperatureFrame: Frame := map["temperature" := Numeric([22.0])]
  const DefaultCo2Frame: Frame := map["co2" := Numeric([600.0]), "humidity" := Numeric([50.0])]

  /** The frames held after loading: the loaded ones, or both fallback frames together. */
  function LoadedFrames(outcome: LoadOutcome): (frames: (Frame, Frame))
    ensures outcome.LoadFailed? ==> frames == (DefaultTemperatureFrame, DefaultCo2Frame)
    ensures outcome.Loaded? ==> frames == (outcome.temperatureFrame, outcome.co2Frame)
    ensures outcome.LoadFailed? ==> ClassBAverages(frames.0, frames.1) == DefaultAverages
  {
    match outcome
    case Loaded(t, c) => (t, c)
    case LoadFailed => (DefaultTemperatureFrame, DefaultCo2Frame)
  }

  function Sum(xs: seq<real>): real {
    if xs == [] then 0.0 else xs[0] + Sum(xs[1..])
  }

  /** The arithmetic mean of a non-empty sequence, in exact arithmetic. */
  function Mean(xs: seq<real>): real
    requires |xs| > 0
  {
    Sum(xs) / (|xs| as real)
  }

  /** A sum of samples that all lie in [lo, hi] lies between n * lo and n * hi. */
  lemma {:induction false} SumBounds(xs: seq<real>, lo: real, hi: real)
    requires forall i :: 0 <= i < |xs| ==> lo <= xs[i] <= hi
    ensures (|xs| as real) * lo <= Sum(xs) <= (|xs| as real) * hi
  {
    if xs != [] {
      SumBounds(xs[1..], lo, hi);
      var n := |xs[1..]| as real;
      assert (n + 1.0) * lo == n * lo + lo;
      assert (n + 1.0) * hi == n * hi + hi;
    }
  }

  /** The mean of samples that all lie in [lo, hi] lies in [lo, hi]. */
  lemma MeanBounds(xs: seq<real>, lo: real, hi: real)
    requires |xs| > 0
    requires forall i :: 0 <= i < |xs| ==> lo <= xs[i] <= hi
    ensures lo <= Mean(xs) <= hi
  {
    SumBounds(xs, lo, hi);
    var n := |xs| as real;
    assert Sum(xs) / n >= lo by {
      assert Sum(xs) >= n * lo;
    }
    assert Sum(xs) / n <= hi by {
      assert Sum(xs) <= n * hi;
    }
  }

  /** The mean of a column whose samples are all equal is that value; in
      particular the mean of a single-row column is its one sample. */
  lemma MeanOfConstant(xs: seq<real>, c: real)
    requires |xs| > 0
    requires forall i :: 0 <= i < |xs| ==> xs[i] == c
    ensures Mean(xs) == c
  {
    MeanBounds(xs, c, c);
  }

  /** `frame[name].mean()`: a missing column or a non-numeric one makes pandas
      raise; an empty column gives NaN, which the model treats as a failure too. */
  function ColumnMean(frame: Frame, name: string): (r: Result<real>)
    ensures r.Ok? <==> name in frame && frame[name].Numeric? && |frame[name].samples| > 0
    ensures r.Ok? ==> r.value == Mean(frame[name].samples)
    ensures name !in frame ==> r == Err(MissingColumn)
  {
    if name !in frame then Err(MissingColumn)
    else match frame[name]
      case NonNumeric => Err(NonNumericColumn)
      case Numeric(xs) => if |xs| == 0 then Err(EmptyColumn) else Ok(Mean(xs))
  }

  /** The three averages kept for classroom 9b. */
  datatype Averages = Averages(temperature: real, co2: real, humidity: real)

  /** The values used when averaging fails: 22.0 degrees, 600.0 ppm, 50.0 percent. */
  const DefaultAverages: Averages := Averages(22.0, 600.0, 50.0)

  /** True when all three columns can be averaged. */
  predicate AllAveragesAvailable(temperatureFrame: Frame, co2Frame: Frame) {
    && ColumnMean(temperatureFrame, "temperature").Ok?
    && ColumnMean(co2Frame, "co2").Ok?
    && ColumnMean(co2Frame, "humidity").Ok?
  }

  /** The averages of classroom 9b: three column means, or, if any one of them
      fails, all three defaults together (a temperature mean already computed
      is discarded as well). */
  function ClassBAverages(temperatureFrame: Frame, co2Frame: Frame): (a: Averages)
    ensures AllAveragesAvailable(temperatureFrame, co2Frame) ==>
      && a.temperature == Mean(temperatureFrame["temperature"].samples)
      && a.co2 == Mean(co2Frame["co2"].samples)
      && a.humidity == Mean(co2Frame["humidity"].samples)
    ensures !AllAveragesAvailable(temperatureFrame, co2Frame) ==> a == DefaultAverages
  {
    match (ColumnMean(temperatureFrame, "temperature"), ColumnMean(co2Frame, "co2"),
           ColumnMean(co2Frame, "humidity"))
    case (Ok(t), Ok(c), Ok(h)) => Averages(t, c, h)
    case _ => DefaultAverages
  }

  /** A failed load yields the same averages as a failed averaging: the single-row
      fallback frames average to exactly 22.0, 600.0 and 50.0. */
  lemma FailedLoadGivesDefaults()
    ensures ClassBAverages(LoadedFrames(LoadFailed).0, LoadedFrames(LoadFailed).1) == DefaultAverages
  {
  }

  /** A column mean lies within the range of the samples it was computed from. */
  lemma ColumnMeanWithinSamples(frame: Frame, name: string, lo: real, hi: real)
    requires ColumnMean(frame, name).Ok?
    requires forall i :: 0 <= i < |frame[name].samples| ==> lo <= frame[name].samples[i] <= hi
    ensures lo <= ColumnMean(frame, name).value <= hi
  {
    MeanBounds(frame[name].samples, lo, hi);
  }

  /** Averaging is all-or-nothing: when the temperature column averages fine but
      a CO2-frame column fails, the temperature average is still replaced by 22.0. */
  lemma TemperatureDiscardedOnLaterFailure(temperatureFrame: Frame, co2Frame: Frame)
    requires ColumnMean(temperatureFrame, "temperature").Ok?
    requires ColumnMean(co2Frame, "co2").Err? || ColumnMean(co2Frame, "humidity").Err?
    ensures ClassBAverages(temperatureFrame, co2Frame).temperature == 22.0
    ensures ClassBAverages(temperatureFrame, co2Frame) == DefaultAverages
  {
  }

  /** A missing temperature column yields the default temperature 22.0 exactly,
      and takes the other two defaults with it. So does an empty one (an empty
      column is treated as a failed average; see ColumnMean). */
  lemma EmptyTemperatureGivesDefaults(temperatureFrame: Frame, co2Frame: Frame)
    requires "temperature" !in temperatureFrame
          || temperatureFrame["temperature"] == Numeric([])
    ensures ClassBAverages(temperatureFrame, co2Frame) == DefaultAverages
    ensures ClassBAverages(temperatureFrame, co2Frame).temperature == 22.0
  {
  }
}
