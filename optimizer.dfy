/** The optimizer object. Its constructor loads the historical frames, fixes the
    optimal ranges and computes classroom 9b's averages once; afterwards its
    queries only read those fields. */
module Optimizer {
  import opened Results
  import opened Comfort
  import opened History
  import opened Selection

  class VentilationOptimizer {
    var temperatureData: Frame
    var co2Data: Frame
    var optimalTempRange: Range
    var optimalCo2Range: Range
    var optimalHumidityRange: Range
    var classBAvgTemp: real
    var classBAvgCo2: real
    var classBAvgHumidity: real

    /** The ranges the scorer reads. */
    function OptimalRanges(): Ranges
      reads this
    {
      Ranges(optimalTempRange, optimalCo2Range, optimalHumidityRange)
    }

    /** The stored averages of classroom 9b. */
    function StoredAverages(): Averages
      reads this
    {
      Averages(classBAvgTemp, classBAvgCo2, classBAvgHumidity)
    }

    /** The object invariant: the ranges are the optimal ones and the averages
        are those of the frames held. */
    ghost predicate Valid()
      reads this
    {
      && OptimalRanges() == Optimal
      && StoredAverages() == ClassBAverages(temperatureData, co2Data)
    }

    /** `__init__`: load the frames, set the ranges, then compute the averages.
        `LoadHistoricalData` and `CalculateClassBAverages` are its construction
        steps; the queries need only the optimal ranges, and after a later re-load
        they use whatever averages are stored, stale or not. */
    constructor (outcome: LoadOutcome)
      ensures Valid()
      ensures (temperatureData, co2Data) == LoadedFrames(outcome)
      ensures outcome.LoadFailed? ==> StoredAverages() == DefaultAverages
    {
      new;
      LoadHistoricalData(outcome);
      optimalTempRange := Range(20.0, 22.0);
      optimalCo2Range := Range(400.0, 800.0);
      optimalHumidityRange := Range(45.0, 55.0);
      CalculateClassBAverages();
    }

    /** `load_historical_data`: keep the loaded frames, or the two single-row
        fallback frames when loading failed. Nothing else changes. */
    method LoadHistoricalData(outcome: LoadOutcome)
      modifies this
      ensures (temperatureData, co2Data) == LoadedFrames(outcome)
      ensures OptimalRanges() == old(OptimalRanges())
      ensures StoredAverages() == old(StoredAverages())
    {
      match outcome {
        case Loaded(t, c) =>
          temperatureData := t;
          co2Data := c;
        case LoadFailed =>
          temperatureData := DefaultTemperatureFrame;
          co2Data := DefaultCo2Frame;
      }
    }

    /** `calculate_class_b_averages`: the fields are assigned one after another;
        a failure at any column overwrites all three with the defaults, even the
        temperature average already assigned. */
    method CalculateClassBAverages()
      modifies this
      ensures StoredAverages() == ClassBAverages(temperatureData, co2Data)
      ensures temperatureData == old(temperatureData) && co2Data == old(co2Data)
      ensures OptimalRanges() == old(OptimalRanges())
    {
      var t := ColumnMean(temperatureData, "temperature");
      if t.Err? {
        classBAvgTemp, classBAvgCo2, classBAvgHumidity := 22.0, 600.0, 50.0;
        return;
      }
      classBAvgTemp := t.value;
      var c := ColumnMean(co2Data, "co2");
      if c.Err? {
        classBAvgTemp, classBAvgCo2, classBAvgHumidity := 22.0, 600.0, 50.0;
        return;
      }
      classBAvgCo2 := c.value;
      var h := ColumnMean(co2Data, "humidity");
      if h.Err? {
        classBAvgTemp, classBAvgCo2, classBAvgHumidity := 22.0, 600.0, 50.0;
        return;
      }
      classBAvgHumidity := h.value;
    }

    /** `get_class_data`: reads the stored averages and the live client, changes nothing. */
    method GetClassData(client: Option<LiveData>) returns (a: Snapshot, b: Snapshot)
      ensures (a, b) == ClassData(StoredAverages(), client)
      ensures b.source == HistoricalAverage ==>
        b.temperature == classBAvgTemp && b.co2 == classBAvgCo2 && b.humidity == classBAvgHumidity
    {
      var selected := SelectLive(client);
      if selected.Err? {
        a, b := ErrorPair.0, ErrorPair.1;
        return;
      }
      a := selected.value;
      b := Snapshot(ClassB, classBAvgTemp, classBAvgHumidity, classBAvgCo2, HistoricalAverage, None);
    }

    /** `calculate_comfort_score` with the ranges this object holds. */
    method CalculateComfortScore(temp: real, co2: real, humidity: real) returns (s: int)
      requires OptimalRanges() == Optimal
      ensures s == Score(Optimal, temp, co2, humidity)
      ensures 20 <= s <= 100
    {
      s := Score(OptimalRanges(), temp, co2, humidity);
    }

    /** `get_competition_data`: fetch both snapshots, then set each one's score
        from its own reading. */
    method GetCompetitionData(client: Option<LiveData>) returns (result: Competition)
      requires OptimalRanges() == Optimal
      ensures result == Assemble(Optimal, StoredAverages(), client)
      ensures result.teamB.source == HistoricalAverage ==>
        result.teamB.score == Some(Score(Optimal, classBAvgTemp, classBAvgCo2, classBAvgHumidity))
      ensures result != CompetitionFallback
    {
      var a, b := GetClassData(client);
      var scoreA := CalculateComfortScore(a.temperature, a.co2, a.humidity);
      a := a.(score := Some(scoreA));
      var scoreB := CalculateComfortScore(b.temperature, b.co2, b.humidity);
      b := b.(score := Some(scoreB));
      result := Competition(a, b);
    }
  }

  /** The averages are computed once and reused: two queries on one optimizer
      give the same competition, and after a failed load team B is scored on
      the default averages. */
  method RepeatedQueries(outcome: LoadOutcome, client: Option<LiveData>)
    returns (first: Competition, second: Competition)
    ensures first == second
    ensures first.teamB.source == HistoricalAverage && outcome.LoadFailed? ==>
      first.teamB.temperature == 22.0 && first.teamB.co2 == 600.0 && first.teamB.humidity == 50.0
  {
    var optimizer := new VentilationOptimizer(outcome);
    first := optimizer.GetCompetitionData(client);
    second := optimizer.GetCompetitionData(client);
  }
}
