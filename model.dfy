/** The records the weather service passes around: the provider's current-conditions
    snapshot, its 3-hour forecast samples, the derived daily summaries, and the
    configured API key. */
module WeatherModel {
  import opened Text

  datatype Option<T> = None | Some(value: T)

  /** `weather[0]` of a provider record: the condition group and its text. */
  datatype Condition = Condition(main: string, description: string)

  /** One entry of the forecast `list`: `dt` (seconds), `main.temp`, `weather[0]` and
      `pop`, which the provider may omit. */
  datatype Sample = Sample(dt: int, temp: real, condition: Condition, pop: Option<real>)

  /** One element of `dailyForecast`: rounded temperatures and a percentage. */
  datatype DailySummary = DailySummary(date: int, temp: int, tempMin: int, tempMax: int,
                                       weather: Condition, pop: int)

  /** The current-conditions record, with the two fields the service attaches to it. */
  datatype Snapshot = Snapshot(
    name: string,
    dt: int,
    temp: real,
    tempMin: real,
    tempMax: real,
    humidity: int,
    windSpeed: Option<real>,
    clouds: Option<int>,
    condition: Condition,
    forecast: Option<seq<Sample>>,
    dailyForecast: Option<seq<DailySummary>>)

  /** `item.pop || 0`. */
  function PopOrZero(s: Sample): (p: real)
    ensures s.pop.Some? ==> p == s.pop.value
    ensures s.pop.None? ==> p == 0.0
  {
    if s.pop.Some? then s.pop.value else 0.0
  }

  /** A probability of precipitation as the provider documents it, when present. */
  predicate PopInRange(s: Sample)
  {
    s.pop.Some? ==> 0.0 <= s.pop.value <= 1.0
  }

  predicate PopsInRange(samples: seq<Sample>)
  {
    forall k :: 0 <= k < |samples| ==> PopInRange(samples[k])
  }

  const Placeholder: string := "YOUR_API_KEY_HERE"

  /** `import.meta.env.VITE_WEATHER_API_KEY || 'YOUR_API_KEY_HERE'`. */
  function ConfiguredKey(env: Option<string>): (key: string)
    ensures key != ""
    ensures env.None? || env.value == "" ==> key == Placeholder
    ensures env.Some? && env.value != "" ==> key == env.value
  {
    if env.None? || env.value == "" then Placeholder else env.value
  }

  /** The negation of `!API_KEY || API_KEY === 'YOUR_API_KEY_HERE' || API_KEY.trim() === ''`. */
  predicate KeyUsable(key: string): (b: bool)
    ensures b <==> key != Placeholder && !AllSpace(key)
  {
    !(key == "" || key == Placeholder || Trim(key) == "")
  }

  /** A configured key is usable exactly when the environment supplies one that is
      neither the placeholder nor blank. */
  lemma ConfiguredKeyUsable(env: Option<string>)
    ensures KeyUsable(ConfiguredKey(env)) <==>
            env.Some? && env.value != Placeholder && !AllSpace(env.value)
  {
  }
}
