# Weather service core, modelled in Dafny

This project models the logic core of a small weather client. The client resolves a typed place name to suggestions and fetches current conditions and a 3-hour forecast. From these it derives a seven-day outlook and a precipitation estimate, and the weather card renders the result as text.

The core lives in two places:

- **`src/services/weatherService.js`**:
  - the time-boxed cache;
  - the cache gate and status-to-error mapping of `getWeatherData`;
  - `getPrecipitationProbability`;
  - the record shaping of `getCitySuggestions` and its fallback;
  - `getDailyForecast`.
- **`src/components/WeatherCard.jsx`**: the pure helpers `getWeatherIcon`, `formatTime` and `getWeatherDescription`.

Modules, one file each:

| file | module | what it holds |
|---|---|---|
| `text.dfy` | `Text` | JavaScript string helpers: `trim` over the ECMAScript white-space set, ASCII case mapping, decimal rendering and parsing, `padStart(2, '0')`, `includes`, `split(',')[0]`, first-letter capitalisation |
| `numbers.dfy` | `Numbers` | `Math.round`, clamping, sums, means, minima and maxima over reals |
| `model.dfy` | `WeatherModel` | the provider records (snapshot, forecast sample, daily summary) and the API-key predicate |
| `cache.dfy` | `Cache` | the cache as a class over a map, with lazy eviction |
| `precipitation.dfy` | `Precipitation` | the forecast path and the current-conditions heuristic |
| `suggestions.dfy` | `Suggestions` | the map / filter / stable sort / slice / map pipeline and the fallback choice |
| `daily.dfy` | `Daily` | the daily aggregator: an imperative grouping loop proved against a fold, stable sort by date, extrapolation, rounding |
| `fetch.dfy` | `WeatherFetch` | `getWeatherData` as a method over the cache, with the upstream answers as parameters |
| `card.dfy` | `WeatherCard` | icon, clock time and description |

Conventions:

- **Time.** Timestamps are integer seconds. A calendar day is `DayOf(t, localOffset) = (t + localOffset) div 86400`, the local date in a zone a fixed `localOffset` seconds ahead of UTC. The clock (`Date.now()`) and today's key are parameters.
- **Numbers.** Temperatures and probabilities are exact reals. `Math.round(x)` is `floor(x + 0.5)`.
- **Absent fields.** A JavaScript `||` default over a field that may be absent is an `Option`, or `""` for strings.
- **Upstream calls.** An upstream call is represented only by what it answered: a parsed body, a non-ok status, or a thrown error.

The cache write and the cache read disagree about which lifetime applies. The write is commented as the daily entry for the 7-day forecast: it passes `true`, and the 3-hour lifetime is declared for that forecast (`src/services/weatherService.js:14`, `:144-145`). The read at `:76`, however, passes `false`, so it uses the 10-minute lifetime and additionally requires today's day key. So every gate hit is a fresh daily entry (`WeatherFetch.GateHitIsDailyFresh`). The 3-hour lifetime is never consulted by the service's own reads: `WeatherFetch.DailyLifetimeNotConsulted` exhibits an entry 11 minutes old that is daily-fresh and still misses. The model follows the code.

## Model

| member | source | states |
|---|---|---|
| `WeatherModel.PopOrZero` | src/services/weatherService.js:162 | a missing `pop` counts as 0, a present one as itself |
| `WeatherModel.ConfiguredKey` | src/services/weatherService.js:4 | an absent or empty variable gives the placeholder; any other value is the key as given; either way the key is non-empty |
| `WeatherModel.ConfiguredKeyUsable` | src/services/weatherService.js:4 | the configured key passes the key check exactly when the environment supplies a non-placeholder, non-blank value |
| `WeatherModel.KeyUsable` | src/services/weatherService.js:65 | a key passes the check exactly when it is not the placeholder and not all white space |
| `Text.Trim` | src/services/weatherService.js:200 | the result is the slice of the input left after the white space at both ends: what precedes and what follows it is white space, it starts and ends on non-white-space, and it is empty exactly when the input is all white space |
| `Text.TrimAtLeastTwo` | src/services/weatherService.js:200 | the trimmed string has at least two characters exactly when the input has two non-white-space characters |
| `Text.ToLower` | src/services/weatherService.js:72 | same length, each character lower-cased (ASCII) |
| `Text.ToUpper` | src/services/weatherService.js:247 | same length, each character upper-cased (ASCII), empty exactly when the input is |
| `Text.FirstSegment` | src/services/weatherService.js:239-241 | `split(',')[0]`: a prefix with no comma, followed by the comma when shorter than the input |
| `Text.NatToString` | src/components/WeatherCard.jsx:57-58 | decimal rendering: at least one digit, one digit exactly below 10, at most two below 100 |
| `Text.ParseNatToString` | src/components/WeatherCard.jsx:57-58 | decimal rendering is parsed back to the same number |
| `Text.NatToStringInjective` | src/services/weatherService.js:23 | distinct numbers render differently |
| `Text.IntToString` | src/components/WeatherCard.jsx:86-89 | template interpolation of an integer: the decimal digits, with a leading minus when negative |
| `Text.Pad2` | src/components/WeatherCard.jsx:57-58 | `padStart(2, '0')` of a number below 100: two digits that read back as the number |
| `Text.Capitalize` | src/components/WeatherCard.jsx:117 | same length, the first character upper-cased, the rest unchanged |
| `Numbers.Round` | src/services/weatherService.js:167 | `Math.round`: within half a unit, ties rounding up |
| `Numbers.RoundMonotone` | src/components/WeatherCard.jsx:65 | rounding never reverses an order |
| `Numbers.RoundBetween` | src/services/weatherService.js:186 | rounding stays within integer bounds of its argument |
| `Numbers.PercentBounds` | src/services/weatherService.js:167 | a probability in [0, 1] rounds to a percentage in [0, 100] |
| `Numbers.Clamp01` | src/services/weatherService.js:462 | `max(0, min(1, x))`: in [0, 1], identity inside, the nearer bound outside |
| `Numbers.MeanBounds` | src/services/weatherService.js:166 | the mean of values within bounds lies within those bounds |
| `Numbers.MinOf` | src/services/weatherService.js:414-416 | the least value: a member of the sequence, no greater than any |
| `Numbers.MaxOf` | src/services/weatherService.js:417-419 | the greatest value: a member of the sequence, no less than any |
| `Cache.TodayKey` | src/services/weatherService.js:21-24 | the key is made of digits and dashes and is at least `y-m-d` long |
| `Cache.TodayKeyInjective` | src/services/weatherService.js:21-24 | `getTodayKey` gives distinct keys for distinct dates |
| `Cache.DailyReadOtherDayMisses` | src/services/weatherService.js:35-42 | an entry written on one date misses a daily-purpose read on any other date, however young it is |
| `Cache.Fresh` | src/services/weatherService.js:31-48 | a fresh entry is younger than 3 hours, and a daily read also needs today's key; an entry under 10 minutes is fresh for a normal read, and for a daily read exactly when its key is today's |
| `Cache.FreshWindow` | src/services/weatherService.js:31-48 | a normal read hits exactly within 10 minutes of the write; a daily read exactly within 3 hours on the same day key |
| `Cache.TimedCache.constructor` | src/services/weatherService.js:12 | the cache starts empty |
| `Cache.TimedCache.Get` | src/services/weatherService.js:27-52 | returns the stored data exactly when the key is present and fresh for the purpose, changing nothing; otherwise returns nothing and deletes that key only |
| `Cache.TimedCache.Set` | src/services/weatherService.js:55-62 | overwrites exactly that key with the data, the clock and today's key, whatever the purpose flag |
| `Precipitation.Positive` | src/services/weatherService.js:163 | keeps only positive values, all taken from the input, and is empty exactly when none is positive |
| `Precipitation.PositiveCounts` | src/services/weatherService.js:163 | every positive value is kept as often as it occurs, every other one dropped, so the mean is over exactly the positive values |
| `Precipitation.PositiveAppend` | src/services/weatherService.js:163 | keeping the positive values distributes over concatenation, and a single value is kept exactly when positive, so they stay in their original order |
| `Precipitation.LeadingPops` | src/services/weatherService.js:160-162 | the probabilities (missing as 0) of the first three samples, in order |
| `Precipitation.ForecastEstimate` | src/services/weatherService.js:159-169 | present exactly when one of the first three samples has a positive probability, and then the rounded percentage of the mean of the positive ones |
| `Precipitation.ForecastEstimateBounds` | src/services/weatherService.js:165-168 | with probabilities in [0, 1] the forecast path gives a percentage in [0, 100] |
| `Precipitation.Heuristic` | src/services/weatherService.js:172-195 | the ordered rules: 90 for rain, drizzle and thunderstorms, 85 for snow, `min(70, round((c + h) / 2))` for humid heavy cloud, `min(40, round(c / 2))` for cloud above 50, else 0 |
| `Precipitation.HeuristicBounds` | src/services/weatherService.js:176-195 | the heuristic is in [0, 90] for any inputs, at most 70 for clouds |
| `Precipitation.CloudCover` | src/services/weatherService.js:173 | the reported cloud cover, or 0 when it is absent |
| `Precipitation.PrecipitationProbability` | src/services/weatherService.js:157-196 | the forecast estimate when there is one, the heuristic otherwise |
| `Precipitation.PrecipitationBounds` | src/services/weatherService.js:157-196 | the estimate is a percentage whenever the forecast probabilities are |
| `Precipitation.RainWithoutForecast` | src/services/weatherService.js:176-178 | rain without a forecast gives 90 |
| `Precipitation.HumidCloudsWithoutForecast` | src/services/weatherService.js:185-187 | 75% cloud at 85% humidity without a forecast gives 70 |
| `Precipitation.ZeroPopsFallThrough` | src/services/weatherService.js:159-169 | all-zero leading probabilities fall through to the heuristic |
| `Suggestions.FirstNonEmpty` | src/services/weatherService.js:233 | the first non-empty string of a `||` chain (every earlier one is empty), empty exactly when all are |
| `Suggestions.PlaceName` | src/services/weatherService.js:231-243 | `item.name` when present, otherwise the first present of city, town, village, municipality and county, otherwise the trimmed first comma-separated part of `display_name` |
| `Suggestions.NameFromDisplayName` | src/services/weatherService.js:237-243 | a name taken from `display_name` has no comma and no surrounding white space, and is empty exactly when the first part is blank |
| `Suggestions.SearchQuery` | src/services/weatherService.js:254-256 | `"name, CC"` when the country code is non-empty, the bare name otherwise |
| `Suggestions.FullName` | src/services/weatherService.js:266-268 | the full name is the display name followed by `, ` and the country |
| `Suggestions.DisplayName` | src/services/weatherService.js:269-271 | the name alone when there is no state, otherwise the name followed by `, ` and the state |
| `Suggestions.Shape` | src/services/weatherService.js:225-273 | each record's name, country, upper-cased code, state (state, region, province or county), type, class, importance, full name, display name and search query as the source derives them |
| `Suggestions.Filter` | src/services/weatherService.js:275-296 | keeps exactly the accepted records; a single record is kept exactly when accepted |
| `Suggestions.Accepted` | src/services/weatherService.js:275-296 | an accepted record has a name and a country; with both, it is accepted exactly for an accepted type or the class `place` or `boundary` |
| `Suggestions.FilterCounts` | src/services/weatherService.js:275-296 | every accepted record is kept as often as it occurs, every other one dropped |
| `Suggestions.FilterAppend` | src/services/weatherService.js:275-296 | filtering distributes over concatenation, so kept records stay in their original order |
| `Suggestions.InsertByImportance` | src/services/weatherService.js:297-300 | one insertion step adds exactly its element |
| `Suggestions.InsertKeepsOrder` | src/services/weatherService.js:297-300 | inserting into a list in descending importance keeps it so |
| `Suggestions.SortByImportance` | src/services/weatherService.js:297-300 | a permutation in descending importance; stability is stated by `Suggestions.SortStable` |
| `Suggestions.WithImportance` | src/services/weatherService.js:297-300 | the records of one importance, in order |
| `Suggestions.InsertStable` | src/services/weatherService.js:297-300 | an inserted record goes before every record as important as itself |
| `Suggestions.SortStable` | src/services/weatherService.js:297-300 | the sort is stable: records of equal importance keep their relative order, which decides the ties at the five-item cut |
| `Suggestions.RankedIsSortedPermutation` | src/services/weatherService.js:224-300 | the ranking `Suggestions.Ranked` holds exactly the accepted shaped records, with multiplicity, in descending importance |
| `Suggestions.PrimarySuggestions` | src/services/weatherService.js:301-310 | the first five of the ranking, projected |
| `Suggestions.Project` | src/services/weatherService.js:302-310 | the suggestion keeps the record's name, country, code, state, full name, display name and search query |
| `Suggestions.PrimarySuggestionsAccepted` | src/services/weatherService.js:275-310 | at most five suggestions, each with a name and a country and from an accepted record, and none outranked by an accepted record left out |
| `Suggestions.FromGeoCity` | src/services/weatherService.js:341-360 | the fallback keeps the city's name and state, uses the country as the country code and `"name, country"` as the search query, and builds the full and display names as the primary path does |
| `Suggestions.FallbackSuggestions` | src/services/weatherService.js:326-365 | empty without a usable key or a good response, otherwise every city, in order |
| `Suggestions.CitySuggestions` | src/services/weatherService.js:199-323 | nothing for a missing or short query; the primary list when the primary request gave at least one suggestion; the fallback otherwise |
| `Suggestions.ShortQueryIsEmpty` | src/services/weatherService.js:200-202 | a query shorter than two characters, or blank, yields nothing whatever the providers answer |
| `Suggestions.QueryTooShort` | src/services/weatherService.js:200 | a query is too short exactly when it is missing or has fewer than two non-white-space characters |
| `Daily.DayOfMonotone` | src/services/weatherService.js:428-429 | later timestamps never fall on earlier days |
| `Daily.DayOfNextDay` | src/services/weatherService.js:435-436 | one day later is the next calendar day |
| `Daily.AddSample` | src/services/weatherService.js:411-424 | adding a sample keeps the group's date |
| `Daily.StartGroup` | src/services/weatherService.js:400-412 | a new day's record, once its first sample is added, holds that temperature as the only one and as both extremes, with the sample's condition and probability (absent as 0) |
| `Daily.Absorb` | src/services/weatherService.js:396-424 | a sample on a day already present updates only that day's record; otherwise a new record is appended |
| `Daily.GroupSamplesGrowth` | src/services/weatherService.js:396-425 | `Daily.GroupSamples`, the fold that computes the grouping, adds at most one record per sample and keeps the initial records' dates |
| `Daily.InitialGroups` | src/services/weatherService.js:374-394 | the synthetic today is present exactly when there is a current snapshot and no sample falls on its day |
| `Daily.InitialGroupsValid` | src/services/weatherService.js:374-394 | the records present before the loop have distinct days, a temperature each and a probability in range |
| `Daily.FindDay` | src/services/weatherService.js:400 | the first group on the given day, or none when no group is on it |
| `Daily.DaySamples` | src/services/weatherService.js:396-398 | the samples of one day: every one of them and only those, empty exactly when no sample is on it; a single sample is kept exactly when on the day |
| `Daily.DaySamplesAppend` | src/services/weatherService.js:396-398 | selecting a day's samples distributes over concatenation, so they keep forecast order and multiplicity |
| `Daily.GroupOfDay` | src/services/weatherService.js:396-425 | a day without samples keeps its initial group; a day with samples and no initial group gets the fold of its own samples |
| `Daily.TodayGroupKept` | src/services/weatherService.js:374-394 | the synthetic today survives grouping untouched when no sample is on today |
| `Daily.NoTodayGroupWhenForecastCoversToday` | src/services/weatherService.js:378-383 | no synthetic today is added when a sample falls on today |
| `Daily.TodayShown` | src/services/weatherService.js:385-392 | the synthetic today built by `Daily.TodayGroup` is shown with the current rounded temperature and extremes, the current condition and a zero probability |
| `Daily.FoldDayExtremes` | src/services/weatherService.js:396-419 | a day's group keeps every temperature in order, and its extremes are their least and greatest |
| `Daily.RepresentativeIndex` | src/services/weatherService.js:421-424 | the day's condition and probability come from its first sample with the highest probability |
| `Daily.DayRepresentative` | src/services/weatherService.js:421-424 | ties in probability keep the earliest sample's condition |
| `Daily.AbsorbKeepsInvariants` | src/services/weatherService.js:396-425 | one sample keeps days distinct, temperature lists non-empty, probabilities in [0, 1] |
| `Daily.GroupSamplesInvariants` | src/services/weatherService.js:396-425 | grouping keys groups by day, gives every group a temperature, keeps probabilities in [0, 1], and yields a group per non-empty input |
| `Daily.InsertByDate` | src/services/weatherService.js:428-429 | one insertion step adds exactly its element |
| `Daily.InsertKeepsOrder` | src/services/weatherService.js:428-429 | inserting a group of a new day keeps the list sorted and its days distinct |
| `Daily.SortByDate` | src/services/weatherService.js:428-429 | the sort is a permutation |
| `Daily.SortByDateAscending` | src/services/weatherService.js:428-429 | sorting distinct days lists them in strictly ascending order |
| `Daily.SortedMembers` | src/services/weatherService.js:428-429 | sorting keeps the length and every group's properties |
| `Daily.TrendOf` | src/services/weatherService.js:441-456 | zero with a single day; otherwise the change that takes the day before the last to the last, in mean temperature, each extreme and probability |
| `Daily.ExtrapolatedDay` | src/services/weatherService.js:433-476 | a day after the last, 70% of each temperature trend and 50% of the probability trend (clamped to [0, 1]), the last day's condition |
| `Daily.Extrapolate` | src/services/weatherService.js:432-477 | exactly one day appended when there are one to six days, none otherwise |
| `Daily.SingleDayFlat` | src/services/weatherService.js:441-462 | a single day is extended flat |
| `Daily.TrendExample` | src/services/weatherService.js:447-459 | days averaging 10 and 14 extrapolate to 16.8, and the extrapolated day is shown as 17 |
| `Daily.Summarize` | src/services/weatherService.js:482-506 | rounded extremes, the probability as a rounded percentage in [0, 100] when it is in [0, 1] |
| `Daily.SummarizeAverage` | src/services/weatherService.js:484-486 | the shown temperature is the rounded mean of the day's temperatures, for measured and extrapolated days alike |
| `Daily.ExtrapolateKeepsOrder` | src/services/weatherService.js:432-477 | the appended day keeps the days strictly ascending |
| `Daily.Finish` | src/services/weatherService.js:480-507 | the first seven groups, summarized |
| `Daily.SortedGroups` | src/services/weatherService.js:374-429 | the sorted groups have temperatures, ascend strictly by day, exist for non-empty input and keep probabilities in range |
| `Daily.DailyForecastOf` | src/services/weatherService.js:368-508 | empty exactly when there are no samples, and never more than seven days |
| `Daily.DailyForecastShape` | src/services/weatherService.js:368-508 | empty for no samples; otherwise one to seven days, strictly ascending, with percentages in [0, 100] |
| `Daily.AddToDay` | src/services/weatherService.js:411-424 | the in-place updates of one day's record are adding the sample to it |
| `Daily.GroupForecast` | src/services/weatherService.js:396-425 | the `forEach` loop computes the grouping fold over all samples |
| `Daily.DailyForecast` | src/services/weatherService.js:368-508 | the method computes the daily outlook, with its shape properties |
| `WeatherFetch.ErrorMessage` | src/services/weatherService.js:66-152 | a transport error shows its own message; the invalid-key message ends with the upstream detail |
| `WeatherFetch.StatusError` | src/services/weatherService.js:90-104 | 404, 401, 429 and any other status map to four distinct errors, each exactly for its status; 401 carries the upstream message or "Invalid API key" |
| `WeatherFetch.CacheKey` | src/services/weatherService.js:72 | `weather_` followed by the lower-cased name |
| `WeatherFetch.CacheKeyCaseInsensitive` | src/services/weatherService.js:72 | two names share an entry exactly when they agree up to letter case |
| `WeatherFetch.GateHit` | src/services/weatherService.js:76-83 | the gate hits exactly when the entry carries today's key and is younger than 10 minutes |
| `WeatherFetch.AfterGate` | src/services/weatherService.js:76 | the gate's read deletes a stale entry and keeps a fresh one |
| `WeatherFetch.GateHitIsDailyFresh` | src/services/weatherService.js:76-81 | every gate hit is a fresh daily-purpose entry |
| `WeatherFetch.DailyLifetimeNotConsulted` | src/services/weatherService.js:76-81 | an entry 11 minutes old from today is daily-fresh but misses the gate |
| `WeatherFetch.Enrich` | src/services/weatherService.js:106-141 | attaches the forecast list and the daily outlook when their requests succeeded, and changes nothing else |
| `WeatherFetch.FetchOutcome` | src/services/weatherService.js:64-154 | without a usable key the missing-key error; on a gate hit the cached data; after a miss, a thrown error keeps its message (or becomes the connection error), a non-ok status maps to its error, and an ok one yields the enriched body |
| `WeatherFetch.MissingKeyAlwaysFails` | src/services/weatherService.js:65-69 | without a usable key the result is the missing-key error, whatever the cache or the network |
| `WeatherFetch.HitIgnoresUpstream` | src/services/weatherService.js:76-83 | a gate hit answers the same whatever the upstream would have said |
| `WeatherFetch.EnrichmentNeverFails` | src/services/weatherService.js:106-147 | after the gate, the outcome is an error exactly when the transport fails or the status is not ok |
| `WeatherFetch.SkippedEnrichmentsKeepBody` | src/services/weatherService.js:106-141 | with both enrichments skipped the body is returned as parsed |
| `WeatherFetch.CacheAfter` | src/services/weatherService.js:55-62 | unchanged without a key or on a hit; on an error the gate's deletion only; on a fetch exactly the city's entry written with the data and the write-time clock and day key |
| `WeatherFetch.FetchThenHit` | src/services/weatherService.js:145-147 | after a fetch, the same city within 10 minutes of the write, on the day the write was stamped with, is a gate hit on the fetched data |
| `WeatherFetch.WriteAfterMidnight` | src/services/weatherService.js:56-60 | a request answered after midnight is stored under the new day, so a call later that day hits |
| `WeatherFetch.ErrorLeavesMiss` | src/services/weatherService.js:148-153 | an error leaves no usable entry for the city |
| `WeatherFetch.GetWeatherData` | src/services/weatherService.js:64-154 | without a usable key the missing-key error, on a gate hit the cached data; in general the method's result and the new cache state are those of the gate, the status mapping, the enrichments and the write, the write using the clock and day key read after the requests |
| `WeatherCard.WeatherIcon` | src/components/WeatherCard.jsx:23-37 | the six own icons each exactly for their condition, the haze icon exactly for mist, fog and haze, the overcast default exactly for every other condition |
| `WeatherCard.OwnIconsDistinguish` | src/components/WeatherCard.jsx:25-36 | apart from haze and the default, an icon names one condition |
| `WeatherCard.FormatTime` | src/components/WeatherCard.jsx:49-60 | five characters, `HH:MM`, where HH and MM read back as the hour of the local day and the minute of the hour |
| `WeatherCard.FormatTimeIsClockReading` | src/components/WeatherCard.jsx:53-59 | hours 00-23, minutes 00-59, and the local second of the day falls within that minute |
| `WeatherCard.FormatTimeDaily` | src/components/WeatherCard.jsx:53-59 | the reading repeats every whole day |
| `WeatherCard.OutlookOf` | src/components/WeatherCard.jsx:62-118 | the opening sentence's kind for each condition group; an unrecognised group reads its own capitalised description |
| `WeatherCard.WindSpeed` | src/components/WeatherCard.jsx:67 | the reported wind speed, or 0 when it is absent |
| `WeatherCard.ClearByTemperature` | src/components/WeatherCard.jsx:71-78 | clear skies: exactly one of three sentences by rounded temperature, and a warmer day never reads cooler |
| `WeatherCard.CloudsByPrecipitation` | src/components/WeatherCard.jsx:79-93 | clouds: few/az first, then scattered/dağınık, then precipitation above 50, above 20, or low, quoting the estimate |
| `WeatherCard.QuotedProbabilityIsPercentage` | src/components/WeatherCard.jsx:86-89 | a quoted probability is a percentage in the band its sentence names |
| `WeatherCard.ThinCloudsRainUnlikely` | src/components/WeatherCard.jsx:79-93 | without a forecast, cloud cover up to 50 never forecasts rain |
| `WeatherCard.RainAndSnowByIntensity` | src/components/WeatherCard.jsx:94-111 | rain: light/hafif, then moderate/orta, else heavy; snow: light/hafif or not |
| `WeatherCard.PhraseQuotesEstimate` | src/components/WeatherCard.jsx:86-89 | `WeatherCard.Phrase`, which holds every opening sentence, quotes the estimate in both rain-chance sentences right after `Yağmur ihtimali %` |
| `WeatherCard.WindRemark` | src/components/WeatherCard.jsx:121-125 | strong above 10, moderate above 5, none otherwise |
| `WeatherCard.HumidityRemark` | src/components/WeatherCard.jsx:127-131 | very humid above 80, dry below 30, none otherwise |
| `WeatherCard.WeatherDescription` | src/components/WeatherCard.jsx:62-134 | the description starts with the opening sentence; without wind only the humidity remark follows it, at moderate humidity only the wind remark |
| `WeatherCard.DescriptionLayout` | src/components/WeatherCard.jsx:62-134 | the description is the opening sentence given by `WeatherCard.Phrase`, then the wind remark, then the humidity remark |
| `WeatherCard.CalmModerateIsBare` | src/components/WeatherCard.jsx:121-131 | calm air at moderate humidity adds nothing to the sentence |
| `WeatherCard.UnrecognisedIsCapitalized` | src/components/WeatherCard.jsx:116-118 | an unrecognised condition reads as its raw description, first letter upper-cased |

## Left out

- Network I/O is not modelled: `fetch`, URLs, headers, `response.json()` and the async control flow. Each request's answer is a parameter. A body that fails to parse is folded into the thrown-error case.
- `console.log` output and the module-level diagnostics are left out.
- `import.meta.env` is reduced to an optional string: `WeatherModel.ConfiguredKey`.
- `Date.now()` and `new Date()` are parameters: the clock and today's key (`Cache.TodayKey` builds the key from a given date). `getWeatherData` takes them twice: once for the gate and once for the write after the requests. The gate's own two readings (`weatherService.js:31` and `:73`) are taken as one instant.
- `toDateString` is modelled as a fixed UTC offset (`Daily.DayOf`). Daylight-saving changes and the local time zone's rules are not modelled. Neither is `setDate(+1)` across a DST change, which the model treats as exactly 86400 seconds.
- Dates are integer seconds, not `Date` objects. The daily summaries carry the group's timestamp in seconds.
- Timestamps outside the `Date` range ("Invalid Date", "NaN:NaN") are not modelled.
- Floating point is exact real arithmetic. IEEE rounding and NaN are not modelled.
- String case mapping is ASCII only. `toLowerCase` / `toUpperCase` on non-ASCII letters (Turkish and others) are left as they are.
- Lengths count code points, not UTF-16 code units.
- `formatDate` (`toLocaleDateString`) is left out: it is locale formatting.
- The JSX markup is left out.
- `src/App.jsx` and `src/components/SearchBar.jsx` are UI state and are not part of this model.
- `getWeatherIcon`'s lookup on a plain object is modelled as a lookup on the nine listed names only. Inherited property names such as `constructor` are not modelled.
- Responses whose fields are missing or of the wrong type (for example, `weather[0]` absent) are not modelled. Records always have the fields the model's datatypes list.
- `WeatherFetch.ErrorMessage`: the model does not prove that the messages of different status classes differ as strings. That status classes map to distinct errors is stated on `WeatherFetch.StatusError`.
