/** `getWeatherData(cityName)`: the API-key check, the cache gate, the mapping of the
    current-conditions status to an error, the two optional forecast enrichments and
    the cache write. What each upstream call answers is a parameter: the gate decides
    whether those answers are used at all. */
module WeatherFetch {
  import opened Text
  import opened WeatherModel
  import opened Cache
  import opened Daily

  /** The errors `getWeatherData` throws. */
  datatype WeatherError =
    | MissingApiKey
    | CityNotFound
    | InvalidApiKey(detail: string)
    | RateLimited
    | ServiceUnavailable
    /** A failure from the transport or parsing that carries a message of its own. */
    | Transport(message: string)
    /** A failure without a message. */
    | ConnectionLost

  /** The text the user is shown for each error. */
  function ErrorMessage(e: WeatherError): (m: string)
    ensures e.Transport? ==> m == e.message
    ensures e.InvalidApiKey? ==> |m| > |e.detail| && m[|m| - |e.detail|..] == e.detail
  {
    match e
    case MissingApiKey =>
      "API anahtarı bulunamadı. Lütfen .env dosyasına VITE_WEATHER_API_KEY değişkenini ekleyin ve dev server'ı yeniden başlatın."
    case CityNotFound => "Şehir bulunamadı. Lütfen şehir adını kontrol edin."
    case InvalidApiKey(detail) =>
      "API anahtarı geçersiz veya aktif değil. Lütfen https://openweathermap.org/api adresinden yeni bir API anahtarı alın. Hata: " + detail
    case RateLimited => "Çok fazla istek yapıldı. Lütfen birkaç dakika sonra tekrar deneyin. (Rate limit aşıldı)"
    case ServiceUnavailable => "Hava durumu bilgisi alınamadı. Lütfen daha sonra tekrar deneyin."
    case Transport(message) => message
    case ConnectionLost => "Bağlantı hatası. İnternet bağlantınızı kontrol edin."
  }

  /** `response.ok`. */
  predicate IsOk(status: int)
  {
    200 <= status < 300
  }

  /** The error for a non-ok status; `message` is the `message` field of the error
      body, "" when it is absent or the body is not JSON. */
  function StatusError(status: int, message: string): (e: WeatherError)
    ensures status == 404 <==> e == CityNotFound
    ensures status == 401 <==> e.InvalidApiKey?
    ensures status == 401 ==> e.detail == if message != "" then message else "Invalid API key"
    ensures status == 429 <==> e == RateLimited
    ensures status !in {401, 404, 429} <==> e == ServiceUnavailable
  {
    if status == 404 then CityNotFound
    else if status == 401 then InvalidApiKey(if message != "" then message else "Invalid API key")
    else if status == 429 then RateLimited
    else ServiceUnavailable
  }

  /** What the current-conditions request gives: a response with its status, the body
      parsed as a snapshot and the error body's `message`; or a thrown error's message
      ("" for none). */
  datatype CurrentReply =
    | Answered(status: int, body: Snapshot, message: string)
    | Failed(message: string)

  /** What an enrichment request gives: its `list` when ok, nothing when it is not ok
      or fails; the service carries on either way. */
  datatype Enrichment = Fetched(list: seq<Sample>) | Skipped

  datatype Outcome = Ok(data: Snapshot) | Err(error: WeatherError)

  /** `weather_${cityName.toLowerCase()}`. */
  function CacheKey(city: string): (k: string)
    ensures |k| == |city| + 8 && k[..8] == "weather_" && k[8..] == ToLower(city)
  {
    "weather_" + ToLower(city)
  }

  /** Two cities share a cache entry exactly when they agree up to letter case. */
  lemma CacheKeyCaseInsensitive(a: string, b: string)
    ensures CacheKey(a) == CacheKey(b) <==> ToLower(a) == ToLower(b)
  {
    if CacheKey(a) == CacheKey(b) {
      assert ToLower(a) == CacheKey(a)[8..];
      assert ToLower(b) == CacheKey(b)[8..];
    }
  }

  /** The cache gate: a normal (10-minute) read that hits, and whose entry carries
      today's key. */
  predicate GateHit(entries: map<string, Entry<Snapshot>>, key: string, now: int, today: string): (b: bool)
    ensures b <==> key in entries && entries[key].dateKey == today && now - entries[key].timestamp < CacheTtl
  {
    key in entries && Fresh(entries[key], false, now, today) && entries[key].dateKey == today
  }

  /** What the gate's read leaves in the cache: a stale entry is deleted. */
  function AfterGate(entries: map<string, Entry<Snapshot>>, key: string, now: int, today: string)
    : (m: map<string, Entry<Snapshot>>)
    ensures key in entries && Fresh(entries[key], false, now, today) ==> m == entries
    ensures !(key in entries && Fresh(entries[key], false, now, today)) ==> m == entries - {key}
  {
    if key in entries && Fresh(entries[key], false, now, today) then entries else entries - {key}
  }

  /** Every gate hit is also a fresh daily-purpose entry. */
  lemma GateHitIsDailyFresh(entries: map<string, Entry<Snapshot>>, key: string, now: int, today: string)
    requires GateHit(entries, key, now, today)
    ensures Fresh(entries[key], true, now, today)
  {
  }

  /** The reverse fails: an entry written today 11 minutes ago is well inside the
      3-hour daily lifetime, and still the gate misses and the service fetches again. */
  lemma DailyLifetimeNotConsulted(data: Snapshot, written: int, key: string, today: string)
    ensures var e := map[key := Entry(data, written, today)];
            Fresh(e[key], true, written + 11 * 60 * 1000, today) &&
            !GateHit(e, key, written + 11 * 60 * 1000, today)
  {
  }

  /** `data.forecast = forecastData.list`, then
      `data.dailyForecast = getDailyForecast(dailyForecastData.list, data)`, each only
      when its request succeeded. */
  function Enrich(body: Snapshot, forecast: Enrichment, daily: Enrichment, localOffset: int): (s: Snapshot)
    ensures s.forecast == if forecast.Fetched? then Some(forecast.list) else body.forecast
    ensures s.dailyForecast ==
            if daily.Fetched? then Some(DailyForecastOf(daily.list, Some(s), localOffset)) else body.dailyForecast
    ensures s.(forecast := body.forecast, dailyForecast := body.dailyForecast) == body
  {
    var withForecast := if forecast.Fetched? then body.(forecast := Some(forecast.list)) else body;
    if daily.Fetched?
    then withForecast.(dailyForecast := Some(DailyForecastOf(daily.list, Some(withForecast), localOffset)))
    else withForecast
  }

  /** What `getWeatherData` resolves to or throws. */
  function FetchOutcome(entries: map<string, Entry<Snapshot>>, apiKey: string, city: string, now: int,
                        today: string, current: CurrentReply, forecast: Enrichment, daily: Enrichment,
                        localOffset: int): (o: Outcome)
    ensures !KeyUsable(apiKey) ==> o == Err(MissingApiKey)
    ensures KeyUsable(apiKey) && GateHit(entries, CacheKey(city), now, today) ==>
              o == Ok(entries[CacheKey(city)].data)
    ensures KeyUsable(apiKey) && !GateHit(entries, CacheKey(city), now, today) && current.Failed? ==>
              o == Err(if current.message != "" then Transport(current.message) else ConnectionLost)
    ensures KeyUsable(apiKey) && !GateHit(entries, CacheKey(city), now, today) && current.Answered? ==>
              o == if IsOk(current.status) then Ok(Enrich(current.body, forecast, daily, localOffset))
                   else Err(StatusError(current.status, current.message))
  {
    if !KeyUsable(apiKey) then Err(MissingApiKey)
    else if GateHit(entries, CacheKey(city), now, today) then Ok(entries[CacheKey(city)].data)
    else match current
      case Failed(message) => Err(if message != "" then Transport(message) else ConnectionLost)
      case Answered(status, body, message) =>
        if !IsOk(status) then Err(StatusError(status, message))
        else Ok(Enrich(body, forecast, daily, localOffset))
  }

  /** Without a usable key nothing else matters: not the cache, not the network. */
  lemma MissingKeyAlwaysFails(entries: map<string, Entry<Snapshot>>, apiKey: string, city: string, now: int,
                              today: string, current: CurrentReply, forecast: Enrichment, daily: Enrichment,
                              localOffset: int)
    requires !KeyUsable(apiKey)
    ensures FetchOutcome(entries, apiKey, city, now, today, current, forecast, daily, localOffset) == Err(MissingApiKey)
  {
  }

  /** A gate hit answers from the cache, whatever the upstream would have said. */
  lemma HitIgnoresUpstream(entries: map<string, Entry<Snapshot>>, apiKey: string, city: string, now: int,
                           today: string, c1: CurrentReply, f1: Enrichment, d1: Enrichment,
                           c2: CurrentReply, f2: Enrichment, d2: Enrichment, localOffset: int)
    requires KeyUsable(apiKey) && GateHit(entries, CacheKey(city), now, today)
    ensures FetchOutcome(entries, apiKey, city, now, today, c1, f1, d1, localOffset) ==
            FetchOutcome(entries, apiKey, city, now, today, c2, f2, d2, localOffset)
  {
  }

  /** Enrichment failures never turn a successful current-conditions call into an
      error: the outcome is an error exactly when the key, the transport or the
      status says so. */
  lemma EnrichmentNeverFails(entries: map<string, Entry<Snapshot>>, apiKey: string, city: string, now: int,
                             today: string, current: CurrentReply, forecast: Enrichment, daily: Enrichment,
                             localOffset: int)
    requires KeyUsable(apiKey) && !GateHit(entries, CacheKey(city), now, today)
    ensures FetchOutcome(entries, apiKey, city, now, today, current, forecast, daily, localOffset).Err? <==>
            current.Failed? || !IsOk(current.status)
  {
  }

  /** A successful fetch that skipped both enrichments returns the body as parsed. */
  lemma SkippedEnrichmentsKeepBody(body: Snapshot, localOffset: int)
    ensures Enrich(body, Skipped, Skipped, localOffset) == body
  {
  }

  /** The cache after `getWeatherData`: unchanged without a key or on a hit, the stale
      entry (if any) deleted on an error, and on a fetch the entry written with the
      clock `writeNow` and day key `writeToday` that `setCachedData` reads after the
      requests have completed. */
  function CacheAfter(entries: map<string, Entry<Snapshot>>, apiKey: string, city: string, now: int,
                      today: string, writeNow: int, writeToday: string, r: Outcome)
    : (m: map<string, Entry<Snapshot>>)
    ensures !KeyUsable(apiKey) || GateHit(entries, CacheKey(city), now, today) ==> m == entries
    ensures KeyUsable(apiKey) && !GateHit(entries, CacheKey(city), now, today) && r.Ok? ==>
            CacheKey(city) in m && m[CacheKey(city)] == Entry(r.data, writeNow, writeToday) &&
            forall k :: k != CacheKey(city) ==> (k in m <==> k in entries) && (k in m ==> m[k] == entries[k])
    ensures KeyUsable(apiKey) && !GateHit(entries, CacheKey(city), now, today) && r.Err? ==>
            m == AfterGate(entries, CacheKey(city), now, today)
  {
    var key := CacheKey(city);
    if !KeyUsable(apiKey) || GateHit(entries, key, now, today) then entries
    else if r.Ok? then entries[key := Entry(r.data, writeNow, writeToday)]
    else AfterGate(entries, key, now, today)
  }

  /** After a fetch, the same city is answered from the cache for 10 minutes from the
      moment of writing, on the day the write was stamped with, even when that is not
      the day the gate ran on (a request that began before midnight and was answered
      after it). */
  lemma FetchThenHit(entries: map<string, Entry<Snapshot>>, apiKey: string, city: string, now: int,
                     today: string, writeNow: int, writeToday: string, later: int, data: Snapshot)
    requires KeyUsable(apiKey) && !GateHit(entries, CacheKey(city), now, today)
    requires writeNow <= later < writeNow + CacheTtl
    ensures GateHit(CacheAfter(entries, apiKey, city, now, today, writeNow, writeToday, Ok(data)),
                    CacheKey(city), later, writeToday)
    ensures CacheAfter(entries, apiKey, city, now, today, writeNow, writeToday, Ok(data))[CacheKey(city)].data == data
  {
  }

  /** An entry written just after midnight belongs to the new day: a later call that
      day hits, while the gate's own day key would have missed. */
  lemma WriteAfterMidnight(entries: map<string, Entry<Snapshot>>, apiKey: string, city: string, now: int,
                           dayBefore: string, dayAfter: string, data: Snapshot)
    requires KeyUsable(apiKey) && !GateHit(entries, CacheKey(city), now, dayBefore)
    requires dayBefore != dayAfter
    ensures var m := CacheAfter(entries, apiKey, city, now, dayBefore, now + 2000, dayAfter, Ok(data));
            GateHit(m, CacheKey(city), now + 2000 + 4 * 60 * 1000, dayAfter) &&
            !GateHit(m, CacheKey(city), now + 2000 + 4 * 60 * 1000, dayBefore)
  {
  }

  /** An error leaves the city without a fresh entry, so the next call fetches again. */
  lemma ErrorLeavesMiss(entries: map<string, Entry<Snapshot>>, apiKey: string, city: string, now: int,
                        today: string, writeNow: int, writeToday: string, e: WeatherError)
    requires KeyUsable(apiKey) && !GateHit(entries, CacheKey(city), now, today)
    ensures !GateHit(CacheAfter(entries, apiKey, city, now, today, writeNow, writeToday, Err(e)),
                     CacheKey(city), now, today)
  {
  }

  /** Writing a key after the gate has deleted it is writing it over the old map. */
  lemma WriteAfterGate(entries: map<string, Entry<Snapshot>>, key: string, now: int, today: string,
                       e: Entry<Snapshot>)
    ensures AfterGate(entries, key, now, today)[key := e] == entries[key := e]
  {
    var m := AfterGate(entries, key, now, today);
    assert m[key := e].Keys == entries[key := e].Keys;
  }

  /** `getWeatherData(cityName)` against the service's cache, with the configured key,
      the clock `now` and today's key at the gate, the clock `writeNow` and day key
      `writeToday` read again by the cache write, and the upstream answers as
      parameters. */
  method GetWeatherData(cache: TimedCache<Snapshot>, apiKey: string, cityName: string, now: int,
                        today: string, writeNow: int, writeToday: string, current: CurrentReply,
                        forecast: Enrichment, daily: Enrichment, localOffset: int)
    returns (r: Outcome)
    modifies cache
    ensures r == FetchOutcome(old(cache.entries), apiKey, cityName, now, today, current, forecast, daily, localOffset)
    ensures !KeyUsable(apiKey) ==> r == Err(MissingApiKey)
    ensures KeyUsable(apiKey) && GateHit(old(cache.entries), CacheKey(cityName), now, today) ==>
              r == Ok(old(cache.entries)[CacheKey(cityName)].data)
    ensures cache.entries == CacheAfter(old(cache.entries), apiKey, cityName, now, today, writeNow, writeToday, r)
  {
    if apiKey == "" || apiKey == Placeholder || Trim(apiKey) == "" {
      return Err(MissingApiKey);
    }
    var cacheKey := CacheKey(cityName);
    var cachedData := cache.Get(cacheKey, false, now, today);
    if cachedData.Some? {
      if cacheKey in cache.entries && cache.entries[cacheKey].dateKey == today {
        return Ok(cachedData.value);
      }
    }
    assert KeyUsable(apiKey) && !GateHit(old(cache.entries), cacheKey, now, today);
    assert cache.entries == AfterGate(old(cache.entries), cacheKey, now, today);
    match current {
      case Failed(message) =>
        r := Err(if message != "" then Transport(message) else ConnectionLost);
        assert CacheAfter(old(cache.entries), apiKey, cityName, now, today, writeNow, writeToday, r) ==
               AfterGate(old(cache.entries), cacheKey, now, today);
      case Answered(status, body, message) =>
        if !IsOk(status) {
          r := Err(StatusError(status, message));
          assert CacheAfter(old(cache.entries), apiKey, cityName, now, today, writeNow, writeToday, r) ==
                 AfterGate(old(cache.entries), cacheKey, now, today);
        } else {
          var data := body;
          if forecast.Fetched? {
            data := data.(forecast := Some(forecast.list));
          }
          if daily.Fetched? {
            var dailyData := DailyForecast(daily.list, Some(data), localOffset);
            data := data.(dailyForecast := Some(dailyData));
          }
          assert data == Enrich(body, forecast, daily, localOffset);
          WriteAfterGate(old(cache.entries), cacheKey, now, today, Entry(data, writeNow, writeToday));
          cache.Set(cacheKey, data, true, writeNow, writeToday);
          r := Ok(data);
          assert CacheAfter(old(cache.entries), apiKey, cityName, now, today, writeNow, writeToday, r) ==
                 old(cache.entries)[cacheKey := Entry(data, writeNow, writeToday)];
        }
    }
  }
}
