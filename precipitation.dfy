/** `getPrecipitationProbability`: a percentage estimate of precipitation, from the
    first forecast samples when they carry a non-zero probability, otherwise from the
    current condition, cloud cover and humidity. */
module Precipitation {
  import opened Numbers
  import opened WeatherModel

  /** How many leading forecast samples the estimate looks at. */
  const LeadingSamples: nat := 3

  /** `.filter(pop => pop > 0)`. */
  function Positive(pops: seq<real>): (r: seq<real>)
    ensures |r| <= |pops|
    ensures forall k :: 0 <= k < |r| ==> r[k] > 0.0 && r[k] in pops
    ensures r == [] <==> forall k :: 0 <= k < |pops| ==> pops[k] <= 0.0
  {
    if pops == [] then []
    else
      var rest := Positive(pops[..|pops| - 1]);
      assert pops == pops[..|pops| - 1] + [pops[|pops| - 1]];
      assert forall x :: x in pops[..|pops| - 1] ==> x in pops;
      if pops[|pops| - 1] > 0.0 then rest + [pops[|pops| - 1]] else rest
  }

  /** Every positive value is kept as often as it occurs, every other one dropped. */
  lemma {:induction false} PositiveCounts(pops: seq<real>)
    ensures forall x :: multiset(Positive(pops))[x] == if x > 0.0 then multiset(pops)[x] else 0
  {
    if pops != [] {
      var init := pops[..|pops| - 1];
      assert pops == init + [pops[|pops| - 1]];
      PositiveCounts(init);
    }
  }

  /** Keeping the positive values distributes over concatenation, so they stay in
      their original order. */
  lemma {:induction false} PositiveAppend(a: seq<real>, b: seq<real>)
    ensures Positive(a + b) == Positive(a) + Positive(b)
    ensures |b| == 1 ==> Positive(b) == if b[0] > 0.0 then b else []
  {
    assert |b| == 1 ==> b[..0] == [];
    if b == [] {
      assert a + b == a;
    } else {
      var b', y := b[..|b| - 1], b[|b| - 1];
      var tail := if y > 0.0 then [y] else [];
      assert (a + b)[..|a + b| - 1] == a + b';
      assert (a + b)[|a + b| - 1] == y;
      assert Positive(a + b) == Positive(a + b') + tail;
      assert Positive(b) == Positive(b') + tail;
      PositiveAppend(a, b');
      assert Positive(a) + Positive(b') + tail == Positive(a) + (Positive(b') + tail);
    }
  }

  /** `forecast.slice(0, 3).map(item => item.pop || 0)`. */
  function LeadingPops(forecast: seq<Sample>): (r: seq<real>)
    ensures |r| == if |forecast| < LeadingSamples then |forecast| else LeadingSamples
    ensures forall k :: 0 <= k < |r| ==> r[k] == PopOrZero(forecast[k])
  {
    var n := if |forecast| < LeadingSamples then |forecast| else LeadingSamples;
    seq(n, k requires 0 <= k < n => PopOrZero(forecast[k]))
  }

  /** The forecast path: present only when some of the first three samples has a
      positive probability, and then `round(100 * mean)` of those probabilities. */
  function ForecastEstimate(forecast: Option<seq<Sample>>): (r: Option<int>)
    ensures r.Some? <==>
            forecast.Some? && exists k :: 0 <= k < |forecast.value| && k < LeadingSamples &&
                                          PopOrZero(forecast.value[k]) > 0.0
    ensures r.Some? ==> r.value == Round(Mean(Positive(LeadingPops(forecast.value))) * 100.0)
  {
    if forecast.None? || |forecast.value| == 0 then None
    else
      var lead := LeadingPops(forecast.value);
      var pops := Positive(lead);
      assert (exists k :: 0 <= k < |lead| && lead[k] > 0.0) <==>
             exists k :: 0 <= k < |forecast.value| && k < LeadingSamples && PopOrZero(forecast.value[k]) > 0.0;
      if |pops| > 0 then Some(Round(Mean(pops) * 100.0)) else None
  }

  /** With probabilities in [0, 1] the forecast path yields a percentage in [0, 100]. */
  lemma ForecastEstimateBounds(forecast: seq<Sample>)
    requires PopsInRange(forecast)
    requires ForecastEstimate(Some(forecast)).Some?
    ensures 0 <= ForecastEstimate(Some(forecast)).value <= 100
  {
    var pops := Positive(LeadingPops(forecast));
    forall k | 0 <= k < |pops| ensures 0.0 <= pops[k] <= 1.0 {
      var j :| 0 <= j < |LeadingPops(forecast)| && LeadingPops(forecast)[j] == pops[k];
      assert PopInRange(forecast[j]);
    }
    MeanBounds(pops, 0.0, 1.0);
    PercentBounds(Mean(pops));
  }

  /** The current-conditions rules, tried in order. */
  function Heuristic(main: string, clouds: int, humidity: int): (r: int)
    ensures main == "Rain" || main == "Drizzle" || main == "Thunderstorm" ==> r == 90
    ensures main == "Snow" ==> r == 85
    ensures main == "Clouds" && clouds > 70 && humidity > 70 ==>
            r == if Round((clouds + humidity) as real / 2.0) < 70
                 then Round((clouds + humidity) as real / 2.0) else 70
    ensures main == "Clouds" && !(clouds > 70 && humidity > 70) && clouds > 50 ==>
            r == if Round(clouds as real / 2.0) < 40 then Round(clouds as real / 2.0) else 40
    ensures main !in {"Rain", "Drizzle", "Thunderstorm", "Snow", "Clouds"} ==> r == 0
    ensures main == "Clouds" && clouds <= 50 ==> r == 0
  {
    if main == "Rain" || main == "Drizzle" || main == "Thunderstorm" then 90
    else if main == "Snow" then 85
    else if main == "Clouds" && clouds > 70 && humidity > 70 then
      var v := Round((clouds + humidity) as real / 2.0);
      if v < 70 then v else 70
    else if main == "Clouds" && clouds > 50 then
      var v := Round(clouds as real / 2.0);
      if v < 40 then v else 40
    else 0
  }

  /** Whatever the inputs, the heuristic lies in [0, 90], and a cloudy sky never
      scores above 70. */
  lemma HeuristicBounds(main: string, clouds: int, humidity: int)
    ensures 0 <= Heuristic(main, clouds, humidity) <= 90
    ensures main == "Clouds" ==> Heuristic(main, clouds, humidity) <= 70
  {
    if main == "Clouds" && clouds > 70 && humidity > 70 {
      RoundBetween((clouds + humidity) as real / 2.0, 0, clouds + humidity);
    } else if main == "Clouds" && clouds > 50 {
      RoundBetween(clouds as real / 2.0, 0, clouds);
    }
  }

  /** `weather.clouds?.all || 0`. */
  function CloudCover(w: Snapshot): (c: int)
    ensures w.clouds.Some? ==> c == w.clouds.value
    ensures w.clouds.None? ==> c == 0
  {
    if w.clouds.Some? then w.clouds.value else 0
  }

  /** `getPrecipitationProbability(weather)`. */
  function PrecipitationProbability(w: Snapshot): (r: int)
    ensures ForecastEstimate(w.forecast).Some? ==> r == ForecastEstimate(w.forecast).value
    ensures ForecastEstimate(w.forecast).None? ==>
            r == Heuristic(w.condition.main, CloudCover(w), w.humidity)
  {
    match ForecastEstimate(w.forecast)
    case Some(p) => p
    case None => Heuristic(w.condition.main, CloudCover(w), w.humidity)
  }

  /** The estimate is a percentage whenever the forecast probabilities are. */
  lemma PrecipitationBounds(w: Snapshot)
    requires w.forecast.Some? ==> PopsInRange(w.forecast.value)
    ensures 0 <= PrecipitationProbability(w) <= 100
  {
    if ForecastEstimate(w.forecast).Some? {
      ForecastEstimateBounds(w.forecast.value);
    } else {
      HeuristicBounds(w.condition.main, CloudCover(w), w.humidity);
    }
  }

  /** Rain with no usable forecast: 90. */
  lemma RainWithoutForecast(w: Snapshot)
    requires w.forecast.None? && w.condition.main == "Rain"
    ensures PrecipitationProbability(w) == 90
  {
  }

  /** Heavy cloud and humidity with no usable forecast: capped at 70. */
  lemma HumidCloudsWithoutForecast(w: Snapshot)
    requires w.forecast.None? && w.condition.main == "Clouds"
    requires w.clouds == Some(75) && w.humidity == 85
    ensures PrecipitationProbability(w) == 70
  {
  }

  /** All-zero probabilities in the first three samples fall through to the heuristic. */
  lemma ZeroPopsFallThrough(w: Snapshot)
    requires w.forecast.Some?
    requires forall k :: 0 <= k < |w.forecast.value| && k < LeadingSamples ==>
                         PopOrZero(w.forecast.value[k]) == 0.0
    ensures PrecipitationProbability(w) == Heuristic(w.condition.main, CloudCover(w), w.humidity)
  {
  }
}
