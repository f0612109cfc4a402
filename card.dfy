/** The pure helpers of the weather card: the icon for a condition group, the local
    clock time of a timestamp, and the Turkish one-paragraph description. */
module WeatherCard {
  import opened Text
  import opened Numbers
  import opened WeatherModel
  import opened Precipitation

  // ---------------------------------------------------------------------------
  // getWeatherIcon

  datatype Icon =
    | WiDaySunny | WiCloudy | WiRain | WiDayRain | WiThunderstorm | WiSnow | WiDayHaze
    /** The default for any condition the table does not list. */
    | WiDaySunnyOvercast

  /** Conditions with an icon of their own. */
  const OwnIconConditions: set<string> := {"Clear", "Clouds", "Rain", "Drizzle", "Thunderstorm", "Snow"}
  /** Conditions drawn with the haze icon. */
  const HazeConditions: set<string> := {"Mist", "Fog", "Haze"}

  /** `icons[main] || <WiDaySunnyOvercast/>`. */
  function WeatherIcon(main: string): (i: Icon)
    ensures main == "Clear" <==> i == WiDaySunny
    ensures main == "Clouds" <==> i == WiCloudy
    ensures main == "Rain" <==> i == WiRain
    ensures main == "Drizzle" <==> i == WiDayRain
    ensures main == "Thunderstorm" <==> i == WiThunderstorm
    ensures main == "Snow" <==> i == WiSnow
    ensures main in HazeConditions <==> i == WiDayHaze
    ensures main !in OwnIconConditions + HazeConditions <==> i == WiDaySunnyOvercast
  {
    if main == "Clear" then WiDaySunny
    else if main == "Clouds" then WiCloudy
    else if main == "Rain" then WiRain
    else if main == "Drizzle" then WiDayRain
    else if main == "Thunderstorm" then WiThunderstorm
    else if main == "Snow" then WiSnow
    else if main in HazeConditions then WiDayHaze
    else WiDaySunnyOvercast
  }

  /** Only the haze icon and the default are shared: any other icon names exactly one
      condition. */
  lemma OwnIconsDistinguish(a: string, b: string)
    requires WeatherIcon(a) == WeatherIcon(b)
    requires WeatherIcon(a) != WiDayHaze && WeatherIcon(a) != WiDaySunnyOvercast
    ensures a == b && a in OwnIconConditions
  {
  }

  // ---------------------------------------------------------------------------
  // formatTime

  /** `formatTime(timestamp, timezoneOffset)`: the UTC clock reading of the shifted
      timestamp, as "HH:MM". */
  function FormatTime(timestamp: int, timezoneOffset: int): (s: string)
    ensures |s| == 5 && s[2] == ':' && AllDigits(s[..2]) && AllDigits(s[3..])
    ensures ParseNat(s[..2]) == ((timestamp + timezoneOffset) % 86400) / 3600
    ensures ParseNat(s[3..]) == ((timestamp + timezoneOffset) % 3600) / 60
  {
    var local := timestamp + timezoneOffset;
    var hours := (local % 86400) / 3600;
    var minutes := (local % 3600) / 60;
    var s := Pad2(hours) + ":" + Pad2(minutes);
    assert s[..2] == Pad2(hours) && s[3..] == Pad2(minutes);
    s
  }

  /** The reading is a valid clock time, and it is the one the second of the local day
      falls in: hours 00–23, minutes 00–59, and `HH:MM:00 <= t < HH:MM:00 + 60`. */
  lemma FormatTimeIsClockReading(timestamp: int, timezoneOffset: int)
    ensures var s := FormatTime(timestamp, timezoneOffset);
            var h, m := ParseNat(s[..2]), ParseNat(s[3..]);
            var t := (timestamp + timezoneOffset) % 86400;
            h < 24 && m < 60 && h * 3600 + m * 60 <= t < h * 3600 + m * 60 + 60
  {
    var local := timestamp + timezoneOffset;
    var t := local % 86400;
    assert local % 3600 == t % 3600 by {
      assert local == (local / 86400) * 86400 + t;
      assert (local / 86400) * 86400 == ((local / 86400) * 24) * 3600;
    }
  }

  /** Whole days change neither the second of the day nor the second of the hour. */
  lemma DayShift(a: int, days: int)
    ensures (a + days * 86400) % 86400 == a % 86400
    ensures (a + days * 86400) % 3600 == a % 3600
  {
    var k := days * 24;
    assert a + days * 86400 == a + k * 3600;
  }

  /** The reading repeats every day. */
  lemma FormatTimeDaily(timestamp: int, timezoneOffset: int, days: int)
    ensures FormatTime(timestamp + days * 86400, timezoneOffset) == FormatTime(timestamp, timezoneOffset)
  {
    DayShift(timestamp + timezoneOffset, days);
    assert timestamp + days * 86400 + timezoneOffset == (timestamp + timezoneOffset) + days * 86400;
  }

  // ---------------------------------------------------------------------------
  // getWeatherDescription

  /** Which sentence the description opens with. */
  datatype Outlook =
    | HotAndSunny | MildAndClear | ClearButCool
    | FewClouds | ScatteredClouds
    | CloudyRainLikely(probability: int) | CloudyRainPossible(probability: int) | CloudyRainUnlikely
    | LightRain | ModerateRain | HeavyRain
    | DrizzleFalling | Thunder
    | LightSnow | SnowFalling
    | Foggy | Hazy
    /** An unrecognised condition: the provider's text, first letter upper-cased. */
    | AsReported(text: string)

  /** `weather.wind?.speed || 0`. */
  function WindSpeed(w: Snapshot): (v: real)
    ensures w.windSpeed.Some? ==> v == w.windSpeed.value
    ensures w.windSpeed.None? ==> v == 0.0
  {
    if w.windSpeed.Some? then w.windSpeed.value else 0.0
  }

  /** The decision chain of `getWeatherDescription`, on the condition group, the
      lower-cased description and the rounded temperature. */
  function OutlookOf(w: Snapshot): (o: Outlook)
    ensures w.condition.main == "Clear" ==> o in {HotAndSunny, MildAndClear, ClearButCool}
    ensures w.condition.main == "Clouds" ==>
            o.CloudyRainLikely? || o.CloudyRainPossible? || o in {FewClouds, ScatteredClouds, CloudyRainUnlikely}
    ensures w.condition.main == "Rain" ==> o in {LightRain, ModerateRain, HeavyRain}
    ensures w.condition.main == "Drizzle" <==> o == DrizzleFalling
    ensures w.condition.main == "Thunderstorm" <==> o == Thunder
    ensures w.condition.main == "Snow" ==> o in {LightSnow, SnowFalling}
    ensures w.condition.main == "Mist" || w.condition.main == "Fog" <==> o == Foggy
    ensures w.condition.main == "Haze" <==> o == Hazy
    ensures o.AsReported? <==> w.condition.main !in OwnIconConditions + HazeConditions
    ensures o.AsReported? ==> o.text == Capitalize(w.condition.description)
  {
    var main := w.condition.main;
    var description := ToLower(w.condition.description);
    var temp := Round(w.temp);
    if main == "Clear" then
      if temp > 25 then HotAndSunny else if temp > 15 then MildAndClear else ClearButCool
    else if main == "Clouds" then
      var precipitationProb := PrecipitationProbability(w);
      if Contains(description, "few") || Contains(description, "az") then FewClouds
      else if Contains(description, "scattered") || Contains(description, "dağınık") then ScatteredClouds
      else if precipitationProb > 50 then CloudyRainLikely(precipitationProb)
      else if precipitationProb > 20 then CloudyRainPossible(precipitationProb)
      else CloudyRainUnlikely
    else if main == "Rain" then
      if Contains(description, "light") || Contains(description, "hafif") then LightRain
      else if Contains(description, "moderate") || Contains(description, "orta") then ModerateRain
      else HeavyRain
    else if main == "Drizzle" then DrizzleFalling
    else if main == "Thunderstorm" then Thunder
    else if main == "Snow" then
      if Contains(description, "light") || Contains(description, "hafif") then LightSnow else SnowFalling
    else if main == "Mist" || main == "Fog" then Foggy
    else if main == "Haze" then Hazy
    else AsReported(Capitalize(w.condition.description))
  }

  /** How warm a clear-sky sentence sounds, from cool (0) to hot (2). */
  function ClearWarmth(o: Outlook): nat
  {
    if o == HotAndSunny then 2 else if o == MildAndClear then 1 else 0
  }

  /** Clear skies: exactly one of three sentences, by rounded temperature, and a warmer
      day never reads cooler. */
  lemma ClearByTemperature(w: Snapshot, v: Snapshot)
    requires w.condition.main == "Clear" && v.condition.main == "Clear"
    ensures OutlookOf(w) == HotAndSunny <==> Round(w.temp) > 25
    ensures OutlookOf(w) == MildAndClear <==> 15 < Round(w.temp) <= 25
    ensures OutlookOf(w) == ClearButCool <==> Round(w.temp) <= 15
    ensures w.temp <= v.temp ==> ClearWarmth(OutlookOf(w)) <= ClearWarmth(OutlookOf(v))
  {
    if w.temp <= v.temp {
      RoundMonotone(w.temp, v.temp);
    }
  }

  /** Clouds: few/az first, then scattered/dağınık; otherwise the precipitation estimate
      chooses, and the sentence quotes it when it is above 20. */
  lemma CloudsByPrecipitation(w: Snapshot)
    requires w.condition.main == "Clouds"
    ensures var d := ToLower(w.condition.description);
            var p := PrecipitationProbability(w);
            (OutlookOf(w) == FewClouds <==> Contains(d, "few") || Contains(d, "az")) &&
            (OutlookOf(w) == ScatteredClouds <==>
               !(Contains(d, "few") || Contains(d, "az")) && (Contains(d, "scattered") || Contains(d, "dağınık"))) &&
            (OutlookOf(w).CloudyRainLikely? <==> OutlookOf(w) == CloudyRainLikely(p) && p > 50) &&
            (OutlookOf(w).CloudyRainPossible? <==> OutlookOf(w) == CloudyRainPossible(p) && 20 < p <= 50) &&
            (OutlookOf(w) == CloudyRainUnlikely <==>
               !(Contains(d, "few") || Contains(d, "az") || Contains(d, "scattered") || Contains(d, "dağınık")) &&
               p <= 20)
  {
  }

  /** A quoted probability is a percentage whenever the forecast probabilities are. */
  lemma QuotedProbabilityIsPercentage(w: Snapshot)
    requires w.forecast.Some? ==> PopsInRange(w.forecast.value)
    ensures OutlookOf(w).CloudyRainLikely? ==> 50 < OutlookOf(w).probability <= 100
    ensures OutlookOf(w).CloudyRainPossible? ==> 20 < OutlookOf(w).probability <= 50
  {
    PrecipitationBounds(w);
  }

  /** Modest cloud cover without a forecast never predicts rain: the heuristic gives 0. */
  lemma ThinCloudsRainUnlikely(w: Snapshot)
    requires w.condition.main == "Clouds" && w.forecast.None? && CloudCover(w) <= 50
    ensures OutlookOf(w) in {FewClouds, ScatteredClouds, CloudyRainUnlikely}
  {
  }

  /** Rain and snow: "light"/"hafif" wins; for rain, then "moderate"/"orta". */
  lemma RainAndSnowByIntensity(w: Snapshot)
    ensures var d := ToLower(w.condition.description);
            var light := Contains(d, "light") || Contains(d, "hafif");
            var moderate := Contains(d, "moderate") || Contains(d, "orta");
            (w.condition.main == "Rain" ==>
               (OutlookOf(w) == LightRain <==> light) &&
               (OutlookOf(w) == ModerateRain <==> !light && moderate) &&
               (OutlookOf(w) == HeavyRain <==> !light && !moderate)) &&
            (w.condition.main == "Snow" ==> (OutlookOf(w) == LightSnow <==> light))
  {
  }

  /** How both rain-chance sentences begin; the estimate follows directly. */
  const RainChancePrefix: string := "Bulutlu bir gün. Yağmur ihtimali %"

  /** The opening sentence of each outlook. */
  function Phrase(o: Outlook): string
  {
    match o
    case HotAndSunny => "Güneşli ve sıcak bir gün. Dışarıda vakit geçirmek için mükemmel! ☀️"
    case MildAndClear => "Açık ve güzel bir hava. Hafif bir ceket yeterli olabilir. 🌞"
    case ClearButCool => "Açık ama serin bir gün. Kalın giyinmeyi unutmayın. 🌤️"
    case FewClouds => "Parçalı bulutlu. Güneş ara sıra görünüyor. ⛅"
    case ScatteredClouds => "Dağınık bulutlar var. Hava genelde açık. ☁️"
    case CloudyRainLikely(p) => RainChancePrefix + IntToString(p) + ". Şemsiye almayı unutmayın. ☁️"
    case CloudyRainPossible(p) => RainChancePrefix + IntToString(p) + ". Hafif bir şemsiye alabilirsiniz. ☁️"
    case CloudyRainUnlikely => "Bulutlu bir gün. Yağmur ihtimali düşük. ☁️"
    case LightRain => "Hafif yağmur yağıyor. Şemsiye almayı unutmayın. 🌦️"
    case ModerateRain => "Orta şiddette yağmur var. Dışarı çıkarken dikkatli olun. 🌧️"
    case HeavyRain => "Şiddetli yağmur bekleniyor. Mümkünse evde kalın. ⛈️"
    case DrizzleFalling => "Çiseleyen yağmur var. Hafif bir şemsiye yeterli. 🌦️"
    case Thunder => "Fırtına ve şimşek var! Dışarı çıkmaktan kaçının. ⛈️"
    case LightSnow => "Hafif kar yağıyor. Yollar kaygan olabilir. ❄️"
    case SnowFalling => "Kar yağıyor. Sıcak giyinmeyi ve dikkatli olmayı unutmayın. ❄️"
    case Foggy => "Sisli bir hava. Görüş mesafesi düşük, araç kullanırken dikkatli olun. 🌫️"
    case Hazy => "Puslu bir hava. Hava kalitesi düşük olabilir. 🌫️"
    case AsReported(text) => text
  }

  /** Both rain-chance sentences quote the estimate right after `RainChancePrefix`. */
  lemma PhraseQuotesEstimate(p: int)
    ensures var q := IntToString(p);
            forall o :: o in {CloudyRainLikely(p), CloudyRainPossible(p)} ==>
              |Phrase(o)| > |RainChancePrefix| + |q| && Phrase(o)[..|RainChancePrefix|] == RainChancePrefix &&
              Phrase(o)[|RainChancePrefix|..|RainChancePrefix| + |q|] == q
  {
  }

  const StrongWind: string := " Güçlü rüzgar var."
  const ModerateWind: string := " Orta şiddette rüzgar var."
  const VeryHumid: string := " Hava oldukça nemli."
  const Dry: string := " Hava kuru."

  /** The wind remark: strong above 10 m/s, moderate above 5, none otherwise. */
  function WindRemark(speed: real): (r: string)
    ensures speed > 10.0 <==> r == StrongWind
    ensures 5.0 < speed <= 10.0 <==> r == ModerateWind
    ensures speed <= 5.0 <==> r == ""
  {
    if speed > 10.0 then StrongWind else if speed > 5.0 then ModerateWind else ""
  }

  /** The humidity remark: very humid above 80%, dry below 30%, none otherwise. */
  function HumidityRemark(humidity: int): (r: string)
    ensures humidity > 80 <==> r == VeryHumid
    ensures humidity < 30 <==> r == Dry
    ensures 30 <= humidity <= 80 <==> r == ""
  {
    if humidity > 80 then VeryHumid else if humidity < 30 then Dry else ""
  }

  /** `getWeatherDescription(weather)`: the opening sentence, then at most one wind
      remark and one humidity remark. */
  function WeatherDescription(w: Snapshot): (d: string)
    ensures |Phrase(OutlookOf(w))| <= |d| && d[..|Phrase(OutlookOf(w))|] == Phrase(OutlookOf(w))
    ensures WindSpeed(w) <= 5.0 ==> d[|Phrase(OutlookOf(w))|..] == HumidityRemark(w.humidity)
    ensures 30 <= w.humidity <= 80 ==> d[|Phrase(OutlookOf(w))|..] == WindRemark(WindSpeed(w))
  {
    Phrase(OutlookOf(w)) + WindRemark(WindSpeed(w)) + HumidityRemark(w.humidity)
  }

  /** The description is the opening sentence, then the wind remark, then the humidity
      remark, so it ends with the humidity remark. */
  lemma DescriptionLayout(w: Snapshot)
    ensures var d := WeatherDescription(w);
            var p, wind, hum := Phrase(OutlookOf(w)), WindRemark(WindSpeed(w)), HumidityRemark(w.humidity);
            |d| == |p| + |wind| + |hum| && d[..|p|] == p && d[|p|..|p| + |wind|] == wind && d[|d| - |hum|..] == hum
  {
  }

  /** Calm air at moderate humidity adds nothing to the opening sentence. */
  lemma CalmModerateIsBare(w: Snapshot)
    requires WindSpeed(w) <= 5.0 && 30 <= w.humidity <= 80
    ensures WeatherDescription(w) == Phrase(OutlookOf(w))
  {
  }

  /** An unrecognised condition reads as its own description, first letter upper-cased:
      the same length and the same text after the first character. */
  lemma UnrecognisedIsCapitalized(w: Snapshot)
    requires w.condition.main !in OwnIconConditions + HazeConditions
    requires WindSpeed(w) <= 5.0 && 30 <= w.humidity <= 80
    ensures var d, raw := WeatherDescription(w), w.condition.description;
            |d| == |raw| && (raw != [] ==> d[0] == AsciiUpper(raw[0]) && d[1..] == raw[1..])
  {
  }
}
