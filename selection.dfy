/** The two classroom snapshots and the competition built from them: classroom
    10c ("team A") is read from the live feed, classroom 9b ("team B") from the
    historical averages, and each side is scored by the comfort rubric. */
module Selection {
  import opened Results
  import opened Comfort
  import opened History

  /** Where a snapshot's reading came from. */
  datatype Source = MqttLive | HistoricalAverage | Fallback | ErrorFallback {
    /** The `data_source` tag the optimizer reports. */
    function Tag(): string {
      match this
      case MqttLive => "mqtt_live"
      case HistoricalAverage => "historical_average"
      case Fallback => "fallback"
      case ErrorFallback => "error_fallback"
    }
  }

  /** One classroom's entry; `score` is absent until the competition attaches it. */
  datatype Snapshot = Snapshot(
    name: string, temperature: real, humidity: real, co2: real,
    source: Source, score: Option<int>)

  /** Both sides of the competition. */
  datatype Competition = Competition(teamA: Snapshot, teamB: Snapshot)

  const ClassA: string := "Klassenraum 10c"
  const ClassB: string := "Klassenraum 9b"

  /** A live sample: a number, or a value `float(...)` cannot convert. */
  datatype Sample = Number(value: real) | Unconvertible

  /** The live client's `combined_data`: metric name to its recent samples, most
      recent last, or no value at all for that name. */
  type LiveData = map<string, Option<seq<Sample>>>

  /** The series stored under a metric, if any (`combined_data.get(metric)`). */
  function Series(data: LiveData, metric: string): Option<seq<Sample>> {
    if metric in data then data[metric] else None
  }

  /** A metric counts as present when its series exists and is non-empty. */
  predicate Present(data: LiveData, metric: string) {
    Series(data, metric).Some? && |Series(data, metric).value| > 0
  }

  /** The live feed is usable when the client has `combined_data` and all three
      metrics are present in it. */
  predicate AllPresent(client: Option<LiveData>) {
    && client.Some?
    && Present(client.value, "temperature")
    && Present(client.value, "humidity")
    && Present(client.value, "co2")
  }

  /** The most recent sample of a present metric. */
  function Latest(data: LiveData, metric: string): Sample
    requires Present(data, metric)
  {
    var s := Series(data, metric).value;
    s[|s| - 1]
  }

  /** True when the latest sample of every metric converts to a number. */
  predicate AllConvertible(client: Option<LiveData>)
    requires AllPresent(client)
  {
    && Latest(client.value, "temperature").Number?
    && Latest(client.value, "humidity").Number?
    && Latest(client.value, "co2").Number?
  }

  /** Team A's snapshot when the live feed is incomplete: 22.0 degrees,
      55.0 percent humidity, 600.0 ppm. */
  const LiveFallback: Snapshot := Snapshot(ClassA, 22.0, 55.0, 600.0, Fallback, None)

  /** The pair `get_class_data` returns when reading the live feed raises. Team B
      here is not the stored averages but fixed values (22.0, 50.0, 600.0). */
  const ErrorPair: (Snapshot, Snapshot) :=
    (Snapshot(ClassA, 22.0, 55.0, 600.0, ErrorFallback, None),
     Snapshot(ClassB, 22.0, 50.0, 600.0, ErrorFallback, None))

  /** Team A's reading. With all three series present, the last sample of each,
      tagged live; a last sample that does not convert is an error. Otherwise
      all three fields fall back together. */
  function SelectLive(client: Option<LiveData>): (r: Result<Snapshot>)
    ensures r.Err? <==> AllPresent(client) && !AllConvertible(client)
    ensures r.Err? ==> r.error == UnconvertibleSample
    ensures r.Ok? ==> r.value.name == ClassA && r.value.score.None?
    ensures r.Ok? ==> (r.value.source == MqttLive <==> AllPresent(client))
    ensures r.Ok? && r.value.source == MqttLive ==>
      && Latest(client.value, "temperature") == Number(r.value.temperature)
      && Latest(client.value, "humidity") == Number(r.value.humidity)
      && Latest(client.value, "co2") == Number(r.value.co2)
    ensures !AllPresent(client) ==> r == Ok(LiveFallback)
  {
    if AllPresent(client) then
      var data := client.value;
      match (Latest(data, "temperature"), Latest(data, "humidity"), Latest(data, "co2"))
      case (Number(t), Number(h), Number(c)) => Ok(Snapshot(ClassA, t, h, c, MqttLive, None))
      case _ => Err(UnconvertibleSample)
    else
      Ok(LiveFallback)
  }

  /** Team B's snapshot from the stored averages. */
  function HistoricalSnapshot(avg: Averages): Snapshot {
    Snapshot(ClassB, avg.temperature, avg.humidity, avg.co2, HistoricalAverage, None)
  }

  /** `get_class_data`: team A from the live feed and team B from the averages,
      or the fixed error pair when the live feed raised. */
  function ClassData(avg: Averages, client: Option<LiveData>): (pair: (Snapshot, Snapshot))
    ensures pair.0.name == ClassA && pair.1.name == ClassB
    ensures pair.0.score.None? && pair.1.score.None?
    ensures pair.1.source == HistoricalAverage <==> SelectLive(client).Ok?
    ensures pair.1.source == HistoricalAverage ==> pair == (SelectLive(client).value, HistoricalSnapshot(avg))
    ensures pair.1.source != HistoricalAverage ==> pair == ErrorPair
  {
    match SelectLive(client)
    case Ok(a) => (a, HistoricalSnapshot(avg))
    case Err(_) => ErrorPair
  }

  /** A snapshot with the comfort score of its own reading attached. */
  function WithScore(ranges: Ranges, s: Snapshot): (t: Snapshot)
    ensures t.score == Some(Score(ranges, s.temperature, s.co2, s.humidity))
    ensures t.(score := s.score) == s
  {
    s.(score := Some(Score(ranges, s.temperature, s.co2, s.humidity)))
  }

  /** `get_competition_data`: the class data with each side scored on its own reading. */
  function Assemble(ranges: Ranges, avg: Averages, client: Option<LiveData>): (c: Competition)
    ensures c.teamA.score == Some(Score(ranges, c.teamA.temperature, c.teamA.co2, c.teamA.humidity))
    ensures c.teamB.score == Some(Score(ranges, c.teamB.temperature, c.teamB.co2, c.teamB.humidity))
    ensures c.teamA.(score := None) == ClassData(avg, client).0
    ensures c.teamB.(score := None) == ClassData(avg, client).1
  {
    var (a, b) := ClassData(avg, client);
    Competition(WithScore(ranges, a), WithScore(ranges, b))
  }

  /** The result `get_competition_data` returns when its own steps raise. */
  const CompetitionFallback: Competition := Competition(
    Snapshot(ClassA, 22.0, 55.0, 600.0, ErrorFallback, Some(75)),
    Snapshot(ClassB, 21.0, 50.0, 580.0, ErrorFallback, Some(80)))

  /** Live selection never mixes live and fallback fields: team A is either
      entirely the latest live samples or entirely the defaults, and team A is
      always classroom 10c. */
  lemma NoPartialFallback(avg: Averages, client: Option<LiveData>)
    ensures ClassData(avg, client).0.name == ClassA
    ensures var a := ClassData(avg, client).0;
      || (a.source == MqttLive && AllPresent(client)
          && Latest(client.value, "temperature") == Number(a.temperature)
          && Latest(client.value, "humidity") == Number(a.humidity)
          && Latest(client.value, "co2") == Number(a.co2))
      || (a.source == Fallback && a.temperature == 22.0 && a.humidity == 55.0 && a.co2 == 600.0)
      || (a.source == ErrorFallback && a.temperature == 22.0 && a.humidity == 55.0 && a.co2 == 600.0)
  {
  }

  /** A feed lacking any one metric (here humidity) makes team A the full
      fallback, not a partial one. */
  lemma MissingHumidityFallsBack(data: LiveData)
    requires !Present(data, "humidity")
    ensures SelectLive(Some(data)) == Ok(LiveFallback)
    ensures SelectLive(Some(data)).value.source.Tag() == "fallback"
  {
  }

  /** On success each side's score is the comfort score of that side's reading;
      team B carries the stored averages tagged "historical_average". */
  lemma AssembledLiveScores(avg: Averages, client: Option<LiveData>)
    requires SelectLive(client).Ok?
    ensures var c := Assemble(Optimal, avg, client);
      && c.teamA.name == ClassA && c.teamB.name == ClassB
      && c.teamB.source.Tag() == "historical_average"
      && c.teamB.temperature == avg.temperature
      && c.teamB.co2 == avg.co2
      && c.teamB.humidity == avg.humidity
      && c.teamB.score == Some(Score(Optimal, avg.temperature, avg.co2, avg.humidity))
  {
  }

  /** When the live feed raises, both sides are tagged "error_fallback" and, their
      fixed readings being optimal, both score 100. */
  lemma ErrorPathScores(avg: Averages, client: Option<LiveData>)
    requires SelectLive(client).Err?
    ensures var c := Assemble(Optimal, avg, client);
      && c.teamA.source == ErrorFallback && c.teamB.source == ErrorFallback
      && c.teamA.score == Some(100) && c.teamB.score == Some(100)
  {
  }

  /** The competition's own fallback is never produced: no step of the assembly
      can fail, and its scores (75 and 80) disagree with what the scorer gives
      the same readings (100 and 100). */
  lemma CompetitionFallbackUnreachable(avg: Averages, client: Option<LiveData>)
    ensures Assemble(Optimal, avg, client) != CompetitionFallback
    ensures Score(Optimal, 22.0, 600.0, 55.0) == 100 != 75
    ensures Score(Optimal, 21.0, 580.0, 50.0) == 100 != 80
  {
  }

  /** Scenario: a live feed holding 21.5 degrees, 650 ppm and 50 percent makes
      team A a live snapshot scoring 100; averages of 23.1 degrees, 850 ppm and
      58 percent make team B score 60. */
  lemma ScenarioScores()
    ensures var live := map["temperature" := Some([Number(21.5)]), "co2" := Some([Number(650.0)]),
                            "humidity" := Some([Number(50.0)])];
      var c := Assemble(Optimal, Averages(23.1, 850.0, 58.0), Some(live));
      && c.teamA.source.Tag() == "mqtt_live" && c.teamA.score == Some(100)
      && c.teamB.source.Tag() == "historical_average" && c.teamB.score == Some(60)
  {
  }
}
