/**
  The data of the prefecture weather forecast bulletin (府県天気予報 R1):
  the tree the XML deserialiser hands to the conversion, and the typed,
  time-aligned report the conversion builds from it. Field names follow the
  bulletin's elements; `typeName` is the `type` attribute (`_type` in the
  source). Leaf values are carried as they are: only their `refId` and the
  properties' `typeName` are ever inspected.
*/
module FukenTypes {
  import opened Base

  // ---- Bulletin metadata, passed through unchanged ----

  datatype ControlStatus = Normal | Training | Test
  datatype InfoType = Announcement | Correction | Delay

  datatype Control = Control(
    title: string, datetime: DateTime, status: ControlStatus,
    editorialOffice: string, publishingOffice: string)

  datatype Head = Head(
    title: string, reportDatetime: DateTime, targetDatetime: DateTime,
    targetDuration: string, infoType: InfoType, infoKind: string, infoKindVersion: string)

  // ---- Shared values ----

  datatype Area = Area(name: string, code: nat)

  /** One point of a block's time axis. */
  datatype TimeDefine = TimeDefine(timeId: nat, datetime: DateTime, duration: Option<string>, name: Option<string>)

  // ---- Leaf measurement values; `refId` ties each one to a TimeDefine ----

  datatype Weather = Weather(refId: Option<nat>, typeName: string, value: string)
  datatype Temporary = Temporary(timeModifier: string, weather: Weather)
  datatype WeatherForecastBase = WeatherForecastBase(weather: Weather)
  datatype WeatherForecastPart = WeatherForecastPart(refId: nat, sentence: string, base: WeatherForecastBase, temporary: seq<Temporary>)
  datatype WindForecastPart = WindForecastPart(refId: nat, sentence: string)
  datatype WaveHeightForecastPart = WaveHeightForecastPart(refId: nat, sentence: string)
  datatype WeatherCode = WeatherCode(refId: nat, typeName: string, value: nat)
  datatype ProbabilityOfPrecipitation = ProbabilityOfPrecipitation(
    condition: string, description: string, refId: nat, typeName: string, unit: string, value: nat)
  datatype Temperature = Temperature(description: string, refId: nat, typeName: string, unit: string, value: int)
  datatype WindDirection = WindDirection(refId: nat, typeName: string, unit: string, value: string)
  datatype WindSpeedLevel = WindSpeedLevel(description: string, range: string, refId: nat, typeName: string, value: nat)

  // ---- The deserialised tree ----

  /** The three lists default to empty when the element is absent. */
  datatype DetailForecast = DetailForecast(
    weatherForecastPart: seq<WeatherForecastPart>,
    windForecastPart: seq<WindForecastPart>,
    waveHeightForecastPart: seq<WaveHeightForecastPart>)

  datatype WeatherPart = WeatherPart(weather: seq<Weather>)
  datatype WeatherCodePart = WeatherCodePart(weatherCode: seq<WeatherCode>)
  datatype ProbabilityOfPrecipitationPart = ProbabilityOfPrecipitationPart(values: seq<ProbabilityOfPrecipitation>)
  datatype TemperaturePart = TemperaturePart(values: seq<Temperature>)
  datatype WindDirectionPart = WindDirectionPart(values: seq<WindDirection>)
  datatype WindSpeedPart = WindSpeedPart(values: seq<WindSpeedLevel>)

  /** A forecast property: its role tag and whichever sub-parts the document carried. */
  datatype Property = Property(
    typeName: string,
    detailForecast: Option<DetailForecast>,
    weatherPart: Option<WeatherPart>,
    weatherCodePart: Option<WeatherCodePart>,
    probabilityOfPrecipitationPart: Option<ProbabilityOfPrecipitationPart>,
    temperaturePart: Option<TemperaturePart>,
    windDirectionPart: Option<WindDirectionPart>,
    windSpeedPart: Option<WindSpeedPart>)

  datatype Kind = Kind(property: seq<Property>)

  /** One area (or station) of a time-series block. */
  datatype Item = Item(kind: seq<Kind>, area: Area)

  datatype TimeDefines = TimeDefines(items: seq<TimeDefine>)
  datatype TimeSeriesInfo = TimeSeriesInfo(timeDefines: TimeDefines, items: seq<Item>)

  /** A proprietary (独自予報) record: free text, never reconstructed. */
  datatype MeteorologicalInfoProperty = MeteorologicalInfoProperty(typeName: string, text: string)
  datatype MeteorologicalInfoKind = MeteorologicalInfoKind(property: MeteorologicalInfoProperty)
  datatype MeteorologicalInfoItem = MeteorologicalInfoItem(kind: MeteorologicalInfoKind, area: Area)
  datatype MeteorologicalInfo = MeteorologicalInfo(dateTime: DateTime, duration: string, item: MeteorologicalInfoItem)

  /** One `MeteorologicalInfos` block; both lists default to empty. */
  datatype MeteorologicalInfosTmp = MeteorologicalInfosTmp(
    typeName: string,
    timeSeriesInfo: seq<TimeSeriesInfo>,
    meteorologicalInfo: seq<MeteorologicalInfo>)

  datatype BodyTmp = BodyTmp(meteorologicalInfos: seq<MeteorologicalInfosTmp>)
  datatype ReportTmp = ReportTmp(control: Control, head: Head, body: BodyTmp)

  // ---- The reconstructed report ----

  /** Today/tomorrow(/the day after) weather, wind and, where given, waves. */
  datatype WeatherForecast = WeatherForecast(
    time: TimeDefine, weatherText: WeatherForecastPart, weather: Weather,
    weatherCode: WeatherCode, wind: WindForecastPart, waveHeight: Option<WaveHeightForecastPart>)

  /** Precipitation probability for one period. */
  datatype Precipitation = Precipitation(time: TimeDefine, probability: ProbabilityOfPrecipitation)

  /** Weather and wind for one 3-hour slot. */
  datatype WeatherAndWindForecast = WeatherAndWindForecast(
    time: TimeDefine, weather: Weather, windDirection: WindDirection, windSpeed: WindSpeedLevel)

  /** One temperature of the coming days, tagged with its property's type. */
  datatype TemperatureForecast = TemperatureForecast(time: TimeDefine, typeName: string, temperature: Temperature)

  /** Temperature for one 3-hour slot. */
  datatype TemperatureTimeSeries = TemperatureTimeSeries(time: TimeDefine, temperature: Temperature)

  datatype AreaForecast<T> = AreaForecast(area: Area, forecast: seq<T>)

  datatype MeteorologicalInfoListItem =
    | WeatherForecast(weatherAreas: seq<AreaForecast<WeatherForecast>>)
    | ProbabilityOfPrecipitation(precipitationAreas: seq<AreaForecast<Precipitation>>)
    | WeatherAndWindTimeSeries(weatherAndWindAreas: seq<AreaForecast<WeatherAndWindForecast>>)
    | TemperatureForecast(temperatureAreas: seq<AreaForecast<TemperatureForecast>>)
    | TemperatureTimeSeries(temperatureSeriesAreas: seq<AreaForecast<TemperatureTimeSeries>>)
    | Proprietary(infos: seq<MeteorologicalInfo>)

  datatype Report = Report(control: Control, head: Head, body: seq<MeteorologicalInfoListItem>)
}
