/** The forecast provider's response records and the display model built from them:
    the three initializers, the Korean description table, the icon-symbol mapping,
    the icon URL and the temperature colour bands. */
module WeatherModels {
  import opened Wrappers
  import opened Text

  // ----- Provider records (One Call API 3.0 and its history endpoint) -----

  datatype WeatherCondition = WeatherCondition(description: string, icon: string)

  datatype CurrentWeather = CurrentWeather(
    dt: int, temp: real, feelsLike: real, humidity: int, windSpeed: real,
    weather: seq<WeatherCondition>)

  datatype Temperature = Temperature(day: real, min: real, max: real)

  datatype FeelsLike = FeelsLike(day: real)

  datatype DailyForecast = DailyForecast(
    dt: int, temp: Temperature, feelsLike: FeelsLike, humidity: int, windSpeed: real,
    weather: seq<WeatherCondition>, sunrise: int, sunset: int)

  datatype OneCallResponse = OneCallResponse(current: CurrentWeather, daily: seq<DailyForecast>)

  datatype HistoricalData = HistoricalData(
    dt: int, temp: real, feelsLike: real, humidity: int, windSpeed: real,
    weather: seq<WeatherCondition>)

  datatype HistoricalWeatherResponse = HistoricalWeatherResponse(data: seq<HistoricalData>)

  // ----- Display model -----

  /** One resort's reading as the screens show it. Instants are seconds since the epoch. */
  datatype WeatherDisplayModel = WeatherDisplayModel(
    temperature: real,
    description: string,
    iconCode: string,
    windSpeed: real,
    humidity: int,
    feelsLike: real,
    sunrise: int,
    sunset: int,
    cityName: string,
    timestamp: int)

  /** Description shown when the provider sends no condition. */
  const NoInfo: string := "정보 없음"
  /** Icon code used when the provider sends no condition. */
  const DefaultIcon: string := "01d"

  /** Provider wording (Korean locale) to the wording the app shows. */
  const DescriptionTable: map<string, string> := map[
    "맑음" := "맑음",
    "청명함" := "맑음",
    "약간의 구름이 낀 하늘" := "구름 조금",
    "한 조각 구름이 낀 하늘" := "구름 조금",
    "튼구름" := "구름 많음",
    "온흐림" := "흐림",
    "구름많음" := "구름 많음",
    "구름조금" := "구름 조금",
    "가벼운 비" := "약한 비",
    "보통 비" := "비",
    "강한 비" := "폭우",
    "매우 강한 비" := "폭우",
    "극심한 비" := "폭우",
    "소나기" := "소나기",
    "약한 소나기 비" := "약한 소나기",
    "소나기 비" := "소나기",
    "강한 소나기 비" := "강한 소나기",
    "가벼운 눈" := "약한 눈",
    "눈" := "눈",
    "강한 눈" := "폭설",
    "진눈깨비" := "진눈깨비",
    "약한 눈보라" := "눈보라",
    "눈보라" := "눈보라",
    "박무" := "옅은 안개",
    "안개" := "안개",
    "연무" := "연무",
    "뇌우" := "천둥번개",
    "실 비" := "이슬비",
    "우박" := "우박"
  ]

  /** `translateDescription`: the table's wording for a listed description, the raw
      text otherwise. */
  function TranslateDescription(raw: string): (r: string)
    ensures raw in DescriptionTable ==> r == DescriptionTable[raw]
    ensures raw !in DescriptionTable ==> r == raw
  {
    if raw in DescriptionTable then DescriptionTable[raw] else raw
  }

  /** Every wording the table produces is either no key of the table or a key that
      maps to itself. */
  lemma TableValuesAreFixedPoints()
    ensures forall k :: k in DescriptionTable ==>
      DescriptionTable[k] !in DescriptionTable || DescriptionTable[DescriptionTable[k]] == DescriptionTable[k]
  {
  }

  /** Translating twice is translating once. */
  lemma TranslateIdempotent(raw: string)
    ensures TranslateDescription(TranslateDescription(raw)) == TranslateDescription(raw)
  {
  }

  /** The description the initializers store for a list of conditions: the first
      condition's, translated, or "정보 없음" when there is none. The stored text is
      itself a fixed point of the translation. */
  function DisplayDescription(weather: seq<WeatherCondition>): (r: string)
    ensures weather == [] ==> r == NoInfo
    ensures weather != [] ==> r == TranslateDescription(weather[0].description)
    ensures TranslateDescription(r) == r
  {
    if weather == [] then
      assert NoInfo !in DescriptionTable;
      NoInfo
    else
      TranslateIdempotent(weather[0].description);
      TranslateDescription(weather[0].description)
  }

  /** The icon code the initializers store: the first condition's, or "01d". */
  function DisplayIcon(weather: seq<WeatherCondition>): (r: string)
    ensures weather == [] ==> r == DefaultIcon
    ensures weather != [] ==> r == weather[0].icon
  {
    if weather == [] then DefaultIcon else weather[0].icon
  }

  /** `init(current:todayDaily:cityName:)`. `now` is the instant the initializer runs,
      the sunrise/sunset placeholder when today's daily entry is missing. */
  function FromCurrent(current: CurrentWeather, todayDaily: Option<DailyForecast>, cityName: string, now: int): (m: WeatherDisplayModel)
    ensures m.temperature == current.temp && m.feelsLike == current.feelsLike
    ensures m.windSpeed == current.windSpeed && m.humidity == current.humidity
    ensures m.description == DisplayDescription(current.weather) && m.iconCode == DisplayIcon(current.weather)
    ensures todayDaily.Some? ==> m.sunrise == todayDaily.value.sunrise && m.sunset == todayDaily.value.sunset
    ensures todayDaily.None? ==> m.sunrise == now && m.sunset == now
    ensures m.cityName == cityName && m.timestamp == current.dt
  {
    var (sunrise, sunset) := if todayDaily.Some? then (todayDaily.value.sunrise, todayDaily.value.sunset) else (now, now);
    WeatherDisplayModel(
      current.temp, DisplayDescription(current.weather), DisplayIcon(current.weather),
      current.windSpeed, current.humidity, current.feelsLike, sunrise, sunset, cityName, current.dt)
  }

  /** `init(daily:cityName:)`: the day-time temperature and feels-like of the entry,
      its own sun times and its own timestamp. */
  function FromDaily(daily: DailyForecast, cityName: string): (m: WeatherDisplayModel)
    ensures m.temperature == daily.temp.day && m.feelsLike == daily.feelsLike.day
    ensures m.windSpeed == daily.windSpeed && m.humidity == daily.humidity
    ensures m.description == DisplayDescription(daily.weather) && m.iconCode == DisplayIcon(daily.weather)
    ensures m.sunrise == daily.sunrise && m.sunset == daily.sunset
    ensures m.cityName == cityName && m.timestamp == daily.dt
  {
    WeatherDisplayModel(
      daily.temp.day, DisplayDescription(daily.weather), DisplayIcon(daily.weather),
      daily.windSpeed, daily.humidity, daily.feelsLike.day, daily.sunrise, daily.sunset, cityName, daily.dt)
  }

  /** `init(historical:cityName:)`: history has no sun times, so both are the
      placeholder `now`. */
  function FromHistorical(historical: HistoricalData, cityName: string, now: int): (m: WeatherDisplayModel)
    ensures m.temperature == historical.temp && m.feelsLike == historical.feelsLike
    ensures m.windSpeed == historical.windSpeed && m.humidity == historical.humidity
    ensures m.description == DisplayDescription(historical.weather) && m.iconCode == DisplayIcon(historical.weather)
    ensures m.sunrise == now && m.sunset == now
    ensures m.cityName == cityName && m.timestamp == historical.dt
  {
    WeatherDisplayModel(
      historical.temp, DisplayDescription(historical.weather), DisplayIcon(historical.weather),
      historical.windSpeed, historical.humidity, historical.feelsLike, now, now, cityName, historical.dt)
  }

  // ----- Icon URL -----

  const IconURLHead: string := "https://openweathermap.org/img/wn/"
  const IconURLTail: string := "@2x.png"

  /** `iconURL`: no URL for an empty icon code, otherwise the provider's 2x image. */
  function IconURL(iconCode: string): (r: Option<string>)
    ensures r.None? <==> iconCode == []
    ensures r.Some? ==> r.value == IconURLHead + iconCode + IconURLTail
  {
    if iconCode == [] then None else Some(IconURLHead + iconCode + IconURLTail)
  }

  /** Different icon codes never share an image URL: the code can be cut back out. */
  lemma IconURLInjective(a: string, b: string)
    requires IconURL(a).Some? && IconURL(a) == IconURL(b)
    ensures a == b
  {
    var u := IconURL(a).value;
    assert u[|IconURLHead|..|u| - |IconURLTail|] == a;
    assert u[|IconURLHead|..|u| - |IconURLTail|] == b;
  }

  // ----- SF Symbol for a condition -----

  const Sun: string := "sun.max.fill"
  const CloudSun: string := "cloud.sun.fill"
  const Cloud: string := "cloud.fill"
  const Rain: string := "cloud.rain.fill"
  const Bolt: string := "cloud.bolt.fill"
  const Snow: string := "cloud.snow.fill"
  const Fog: string := "cloud.fog.fill"

  /** `iconCode.prefix(2)`. */
  function IconPrefix(iconCode: string): (p: string)
    ensures |p| == if |iconCode| < 2 then |iconCode| else 2
    ensures IsPrefix(p, iconCode)
  {
    if |iconCode| < 2 then iconCode else iconCode[..2]
  }

  /** The description fallback of `systemIconName`, checked in this priority order. */
  function DescriptionSymbol(desc: string): (r: string)
    ensures r in {Sun, Cloud, Rain, Snow, Bolt, Fog, CloudSun}
    ensures r == CloudSun <==>
      !Contains(desc, "맑음") && !Contains(desc, "청명") && !Contains(desc, "구름") && !Contains(desc, "비")
      && !Contains(desc, "눈") && !Contains(desc, "천둥") && !Contains(desc, "안개")
    ensures r == Sun <==> Contains(desc, "맑음") || Contains(desc, "청명")
  {
    if Contains(desc, "맑음") || Contains(desc, "청명") then Sun
    else if Contains(desc, "구름") then Cloud
    else if Contains(desc, "비") then Rain
    else if Contains(desc, "눈") then Snow
    else if Contains(desc, "천둥") then Bolt
    else if Contains(desc, "안개") then Fog
    else CloudSun
  }

  /** `systemIconName`: the two-character icon-code prefix decides; for any other
      prefix the lowercased description does. */
  function SystemIconName(iconCode: string, description: string): (r: string)
    ensures r in {Sun, CloudSun, Cloud, Rain, Bolt, Snow, Fog}
  {
    var code := IconPrefix(iconCode);
    if code == "01" then Sun
    else if code == "02" then CloudSun
    else if code == "03" || code == "04" then Cloud
    else if code == "09" || code == "10" then Rain
    else if code == "11" then Bolt
    else if code == "13" then Snow
    else if code == "50" then Fog
    else DescriptionSymbol(Lowercased(description))
  }

  /** Reference table of the icon-code prefixes the provider documents. */
  const PrefixSymbols: map<string, string> := map[
    "01" := Sun, "02" := CloudSun, "03" := Cloud, "04" := Cloud, "09" := Rain,
    "10" := Rain, "11" := Bolt, "13" := Snow, "50" := Fog]

  /** Reference list of description keywords, highest priority first. */
  const KeywordSymbols: seq<(string, string)> := [
    ("맑음", Sun), ("청명", Sun), ("구름", Cloud), ("비", Rain), ("눈", Snow),
    ("천둥", Bolt), ("안개", Fog)]

  /** The symbol of the first keyword in `keywords` that occurs in `desc`, else the
      default "cloud.sun.fill". */
  function FirstKeywordSymbol(desc: string, keywords: seq<(string, string)>): string
  {
    if keywords == [] then CloudSun
    else if Contains(desc, keywords[0].0) then keywords[0].1
    else FirstKeywordSymbol(desc, keywords[1..])
  }

  /** `systemIconName` agrees with the two reference tables: a known prefix is looked
      up and the description is ignored; otherwise the first keyword in priority order
      that the raw (not lowercased) description contains decides. */
  lemma SystemIconNameByTables(iconCode: string, description: string)
    ensures SystemIconName(iconCode, description) ==
      if IconPrefix(iconCode) in PrefixSymbols then PrefixSymbols[IconPrefix(iconCode)]
      else FirstKeywordSymbol(description, KeywordSymbols)
  {
    if IconPrefix(iconCode) !in PrefixSymbols {
      FallbackIgnoresLowercasing(description);
      FirstKeywordSymbolUnrolled(description);
    }
  }

  /** The Hangul keywords have no case, so lowercasing the description first never
      changes the fallback symbol. */
  lemma FallbackIgnoresLowercasing(description: string)
    ensures DescriptionSymbol(Lowercased(description)) == DescriptionSymbol(description)
  {
    CaselessKeyUnaffectedByLowercasing(description, "맑음");
    CaselessKeyUnaffectedByLowercasing(description, "청명");
    CaselessKeyUnaffectedByLowercasing(description, "구름");
    CaselessKeyUnaffectedByLowercasing(description, "비");
    CaselessKeyUnaffectedByLowercasing(description, "눈");
    CaselessKeyUnaffectedByLowercasing(description, "천둥");
    CaselessKeyUnaffectedByLowercasing(description, "안개");
  }

  /** The reference list read out as a chain of tests. */
  lemma FirstKeywordSymbolUnrolled(desc: string)
    ensures FirstKeywordSymbol(desc, KeywordSymbols) == DescriptionSymbol(desc)
  {
    var ks := KeywordSymbols;
    assert ks[6..] == [("안개", Fog)] && ks[6..][1..] == [];
    assert FirstKeywordSymbol(desc, []) == CloudSun;
    assert ks[5..][1..] == ks[6..];
    assert ks[4..][1..] == ks[5..];
    assert ks[3..][1..] == ks[4..];
    assert ks[2..][1..] == ks[3..];
    assert ks[1..][1..] == ks[2..];
    var tail6 := FirstKeywordSymbol(desc, ks[6..]);
    assert tail6 == if Contains(desc, "안개") then Fog else CloudSun;
    var tail5 := FirstKeywordSymbol(desc, ks[5..]);
    assert tail5 == if Contains(desc, "천둥") then Bolt else tail6;
    var tail4 := FirstKeywordSymbol(desc, ks[4..]);
    assert tail4 == if Contains(desc, "눈") then Snow else tail5;
    var tail3 := FirstKeywordSymbol(desc, ks[3..]);
    assert tail3 == if Contains(desc, "비") then Rain else tail4;
    var tail2 := FirstKeywordSymbol(desc, ks[2..]);
    assert tail2 == if Contains(desc, "구름") then Cloud else tail3;
    var tail1 := FirstKeywordSymbol(desc, ks[1..]);
    assert tail1 == if Contains(desc, "청명") then Sun else tail2;
  }

  // ----- Icon colour by temperature -----

  datatype IconColor = Purple | Blue | Cyan | Green | Orange | Red

  /** `iconColor`: six bands, from below -10 degrees up to 30 degrees and above. */
  function IconColorFor(temperature: real): (c: IconColor)
    ensures c == Purple <==> temperature < -10.0
    ensures c == Blue <==> -10.0 <= temperature < 0.0
    ensures c == Cyan <==> 0.0 <= temperature < 10.0
    ensures c == Green <==> 10.0 <= temperature < 20.0
    ensures c == Orange <==> 20.0 <= temperature < 30.0
    ensures c == Red <==> 30.0 <= temperature
  {
    if temperature < -10.0 then Purple
    else if temperature < 0.0 then Blue
    else if temperature < 10.0 then Cyan
    else if temperature < 20.0 then Green
    else if temperature < 30.0 then Orange
    else Red
  }

  /** Position of a colour on the cold-to-warm scale. */
  function ColorRank(c: IconColor): nat
  {
    match c
    case Purple => 0
    case Blue => 1
    case Cyan => 2
    case Green => 3
    case Orange => 4
    case Red => 5
  }

  /** The bands are the ten-degree steps counted from -20 degrees, with everything
      below -10 in the first band and everything from 30 in the last. */
  lemma IconColorIsTenDegreeStep(temperature: real)
    ensures ColorRank(IconColorFor(temperature)) ==
      var step := ((temperature + 20.0) / 10.0).Floor;
      if step < 0 then 0 else if step > 5 then 5 else step
  {
  }

  /** A warmer reading never gets a colder colour. */
  lemma IconColorMonotone(t1: real, t2: real)
    requires t1 <= t2
    ensures ColorRank(IconColorFor(t1)) <= ColorRank(IconColorFor(t2))
  {
  }
}
