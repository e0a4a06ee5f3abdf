/**
  Reconstruction of the prefecture weather forecast bulletin (府県天気予報 R1)
  from its deserialised tree: `Report::from_tmp` and
  `MeteorologicalInfoListItem::from_tmp`.

  Each time-series block carries a time axis (`TimeDefine`s) and, per area,
  one value list per role (weather text, wind, wave height, ...). Values are
  tied to times only through their `refId`: the conversion sorts the axis by
  `timeId`, sorts every role list by `refId`, and zips them by position.

  The pure steps (flattening, arity checks, sorting, destructuring, zipping)
  are functions; the loops that push and extend result vectors are methods
  proved equal to the functions that specify them.
*/
module FukenR1 {
  import opened Base
  import opened Sorting
  import opened Zipping
  import opened FukenTypes

  // ---- Tag literals of the bulletin schema ----

  /** Block categories (`MeteorologicalInfos@type`). */
  const AreaForecastTag: string := "区域予報"
  const StationForecastTag: string := "地点予報"
  const ProprietaryTag: string := "独自予報"

  /** Property roles (`Property/Type`). */
  const WeatherTag: string := "天気"
  const WaveTag: string := "波"
  const WindTag: string := "風"
  const PrecipitationTag: string := "降水確率"
  const DominantWeatherTag: string := "３時間内卓越天気"
  const RepresentativeWindTag: string := "３時間内代表風"
  const TemperatureSeriesTag: string := "３時間毎気温"

  // ---- Sort keys (see module Sorting for the encoding) ----

  function TimeKey(t: TimeDefine): Key { NatKey(t.timeId) }
  function TypeKey(p: Property): Key { StringKey(p.typeName) }
  function WeatherTextKey(w: WeatherForecastPart): Key { NatKey(w.refId) }
  function WeatherKey(w: Weather): Key { OptionKey(w.refId) }
  function WeatherCodeKey(w: WeatherCode): Key { NatKey(w.refId) }
  function WindKey(w: WindForecastPart): Key { NatKey(w.refId) }
  function WaveKey(w: WaveHeightForecastPart): Key { NatKey(w.refId) }
  function PrecipitationKey(p: ProbabilityOfPrecipitation): Key { NatKey(p.refId) }
  function TemperatureKey(t: Temperature): Key { NatKey(t.refId) }
  function WindDirectionKey(w: WindDirection): Key { NatKey(w.refId) }
  function WindSpeedKey(w: WindSpeedLevel): Key { NatKey(w.refId) }

  /** The time axis of a block: its TimeDefines sorted by `timeId`. */
  function TimeAxis(tsi: TimeSeriesInfo): seq<TimeDefine>
  {
    SortByKey(tsi.timeDefines.items, TimeKey)
  }

  /** All properties of an item, kind by kind, in document order. */
  function Flatten(kinds: seq<Kind>): seq<Property>
  {
    if kinds == [] then [] else kinds[0].property + Flatten(kinds[1..])
  }

  /** `assert_eq!(left, right)`. */
  function AssertEq(left: string, right: string): (r: Outcome<()>)
    ensures r.Ok? <==> left == right
    ensures r.Fail? ==> r.failure == Panic(AssertEqFailed(left, right))
  {
    if left == right then Ok(()) else Fail(Panic(AssertEqFailed(left, right)))
  }

  // ---- Record construction: zip the time axis with the role lists ----

  function WeatherRecords(
    times: seq<TimeDefine>, texts: seq<WeatherForecastPart>, weathers: seq<Weather>,
    codes: seq<WeatherCode>, waves: Option<seq<WaveHeightForecastPart>>, winds: seq<WindForecastPart>)
    : (r: seq<WeatherForecast>)
    ensures |r| == Min(Min(Min(Min(Min(|times|, |texts|), |weathers|), |codes|),
                           if waves.Some? then |waves.value| else |winds|), |winds|)
    ensures forall k :: 0 <= k < |r| ==>
              r[k] == FukenTypes.WeatherForecast.WeatherForecast(
                        times[k], texts[k], weathers[k], codes[k], winds[k],
                        if waves.Some? then Some(waves.value[k]) else None)
  {
    match waves
    case Some(ws) =>
      var z := Zip(Zip(Zip(Zip(Zip(times, texts), weathers), codes), ws), winds);
      seq(|z|, k requires 0 <= k < |z| =>
        var (((((time, text), weather), code), wave), wind) := z[k];
        FukenTypes.WeatherForecast.WeatherForecast(time, text, weather, code, wind, Some(wave)))
    case None =>
      var z := Zip(Zip(Zip(Zip(times, texts), weathers), codes), winds);
      seq(|z|, k requires 0 <= k < |z| =>
        var ((((time, text), weather), code), wind) := z[k];
        FukenTypes.WeatherForecast.WeatherForecast(time, text, weather, code, wind, None))
  }

  function PrecipitationRecords(times: seq<TimeDefine>, values: seq<ProbabilityOfPrecipitation>): (r: seq<Precipitation>)
    ensures |r| == Min(|times|, |values|)
    ensures forall k :: 0 <= k < |r| ==> r[k] == Precipitation(times[k], values[k])
  {
    var z := Zip(times, values);
    seq(|z|, k requires 0 <= k < |z| => Precipitation(z[k].0, z[k].1))
  }

  function WeatherAndWindRecords(
    times: seq<TimeDefine>, directions: seq<WindDirection>, speeds: seq<WindSpeedLevel>, weathers: seq<Weather>)
    : (r: seq<WeatherAndWindForecast>)
    ensures |r| == Min(Min(Min(|times|, |directions|), |speeds|), |weathers|)
    ensures forall k :: 0 <= k < |r| ==>
              r[k] == WeatherAndWindForecast(times[k], weathers[k], directions[k], speeds[k])
  {
    var z := Zip(Zip(Zip(times, directions), speeds), weathers);
    seq(|z|, k requires 0 <= k < |z| =>
      var (((time, direction), speed), weather) := z[k];
      WeatherAndWindForecast(time, weather, direction, speed))
  }

  function TemperatureSeriesRecords(times: seq<TimeDefine>, values: seq<Temperature>): (r: seq<TemperatureTimeSeries>)
    ensures |r| == Min(|times|, |values|)
    ensures forall k :: 0 <= k < |r| ==> r[k] == FukenTypes.TemperatureTimeSeries.TemperatureTimeSeries(times[k], values[k])
  {
    var z := Zip(times, values);
    seq(|z|, k requires 0 <= k < |z| => FukenTypes.TemperatureTimeSeries.TemperatureTimeSeries(z[k].0, z[k].1))
  }

  /** A property the temperature-forecast path can read: a non-empty temperature part. */
  predicate HasTemperature(p: Property)
  {
    p.temperaturePart.Some? && |p.temperaturePart.value.values| > 0
  }

  /** Time k with property k, in document order, taking the property's type
      and the first of its temperatures. */
  function TemperatureForecastRecords(times: seq<TimeDefine>, properties: seq<Property>): (r: seq<TemperatureForecast>)
    requires forall i :: 0 <= i < |properties| ==> HasTemperature(properties[i])
    ensures |r| == Min(|times|, |properties|)
    ensures forall k :: 0 <= k < |r| ==>
              && HasTemperature(properties[k])
              && r[k] == FukenTypes.TemperatureForecast.TemperatureForecast(
                           times[k], properties[k].typeName, properties[k].temperaturePart.value.values[0])
  {
    var z := Zip(times, properties);
    seq(|z|, k requires 0 <= k < |z| =>
      var (time, p) := z[k];
      assert HasTemperature(properties[k]);
      FukenTypes.TemperatureForecast.TemperatureForecast(time, p.typeName, p.temperaturePart.value.values[0]))
  }

  // ---- One item (area or station) of a classified block ----

  /** The records of one area under the 3-hour strategy: the wind
      directions and speeds of the ３時間内代表風 property and the weather of
      the ３時間内卓越天気 property, each sorted by ref id and zipped with the
      axis. */
  function WeatherAndWindForecasts(axis: seq<TimeDefine>, wind: Property, weather: Property)
    : seq<WeatherAndWindForecast>
    requires wind.windDirectionPart.Some? && wind.windSpeedPart.Some? && weather.weatherPart.Some?
  {
    WeatherAndWindRecords(
      axis,
      SortByKey(wind.windDirectionPart.value.values, WindDirectionKey),
      SortByKey(wind.windSpeedPart.value.values, WindSpeedKey),
      SortByKey(weather.weatherPart.value.weather, WeatherKey))
  }

  /** The records of one area under the 天気/波/風 strategy: every role
      list of the 天気, 波 (when present) and 風 properties sorted by ref id
      and zipped with the axis. */
  function WeatherForecasts(axis: seq<TimeDefine>, weather: Property, wave: Option<Property>, wind: Property)
    : seq<WeatherForecast>
    requires weather.detailForecast.Some? && weather.weatherPart.Some? && weather.weatherCodePart.Some?
    requires wave.Some? ==> wave.value.detailForecast.Some?
    requires wind.detailForecast.Some?
  {
    WeatherRecords(
      axis,
      SortByKey(weather.detailForecast.value.weatherForecastPart, WeatherTextKey),
      SortByKey(weather.weatherPart.value.weather, WeatherKey),
      SortByKey(weather.weatherCodePart.value.weatherCode, WeatherCodeKey),
      if wave.Some? then Some(SortByKey(wave.value.detailForecast.value.waveHeightForecastPart, WaveKey)) else None,
      SortByKey(wind.detailForecast.value.windForecastPart, WindKey))
  }


  /** The 天気/波/風 strategy: three properties give wave heights, two do not. */
  function WeatherItem(axis: seq<TimeDefine>, item: Item): Outcome<AreaForecast<WeatherForecast>>
  {
    var properties := Flatten(item.kind);
    if |properties| == 3 then
      var p := SortByKey(properties, TypeKey);
      if && p[0].detailForecast.Some? && p[0].weatherPart.Some? && p[0].weatherCodePart.Some?
         && p[1].detailForecast.Some?
         && p[2].detailForecast.Some?
      then
        var _ :- AssertEq(p[0].typeName, WeatherTag);
        var _ :- AssertEq(p[1].typeName, WaveTag);
        var _ :- AssertEq(p[2].typeName, WindTag);
        Ok(AreaForecast(item.area, WeatherForecasts(axis, p[0], Some(p[1]), p[2])))
      else
        Fail(Error(MissingSubPart))
    else if |properties| == 2 then
      var p := SortByKey(properties, TypeKey);
      if && p[0].detailForecast.Some? && p[0].weatherPart.Some? && p[0].weatherCodePart.Some?
         && p[1].detailForecast.Some?
      then
        var _ :- AssertEq(p[0].typeName, WeatherTag);
        var _ :- AssertEq(p[1].typeName, WindTag);
        Ok(AreaForecast(item.area, WeatherForecasts(axis, p[0], None, p[1])))
      else
        Fail(Error(MissingSubPart))
    else
      Fail(Error(InvalidPropertyCount))
  }

  /** The 降水確率 strategy: exactly one property with a precipitation part. */
  function PrecipitationItem(axis: seq<TimeDefine>, item: Item): Outcome<AreaForecast<Precipitation>>
  {
    var properties := Flatten(item.kind);
    if |properties| != 1 then Fail(Error(InvalidPropertyCount))
    else if properties[0].probabilityOfPrecipitationPart.None? then Fail(Error(MissingSubPart))
    else
      Ok(AreaForecast(item.area, PrecipitationRecords(
        axis, SortByKey(properties[0].probabilityOfPrecipitationPart.value.values, PrecipitationKey))))
  }

  /** The 3-hour strategy: exactly two properties, the representative wind
      (direction and speed) sorting before the dominant weather. */
  function WeatherAndWindItem(axis: seq<TimeDefine>, item: Item): Outcome<AreaForecast<WeatherAndWindForecast>>
  {
    var properties := Flatten(item.kind);
    if |properties| != 2 then Fail(Error(InvalidPropertyCount))
    else
      var p := SortByKey(properties, TypeKey);
      if p[0].windDirectionPart.Some? && p[0].windSpeedPart.Some? && p[1].weatherPart.Some? then
        var _ :- AssertEq(p[0].typeName, RepresentativeWindTag);
        var _ :- AssertEq(p[1].typeName, DominantWeatherTag);
        Ok(AreaForecast(item.area, WeatherAndWindForecasts(axis, p[0], p[1])))
      else
        Fail(Error(MissingSubPart))
  }

  /** The ３時間毎気温 strategy: exactly one property with a temperature part. */
  function TemperatureSeriesItem(axis: seq<TimeDefine>, item: Item): Outcome<AreaForecast<TemperatureTimeSeries>>
  {
    var properties := Flatten(item.kind);
    if |properties| != 1 then Fail(Error(InvalidPropertyCount))
    else if properties[0].temperaturePart.None? then Fail(Error(MissingSubPart))
    else
      Ok(AreaForecast(item.area, TemperatureSeriesRecords(
        axis, SortByKey(properties[0].temperaturePart.value.values, TemperatureKey))))
  }

  /** The default station strategy: any number of properties, each needing a
      non-empty temperature part, paired with the axis in document order. */
  function TemperatureForecastItem(axis: seq<TimeDefine>, item: Item): Outcome<AreaForecast<TemperatureForecast>>
  {
    var properties := Flatten(item.kind);
    if exists i :: 0 <= i < |properties| && !HasTemperature(properties[i]) then
      Fail(Error(MissingSubPart))
    else
      Ok(AreaForecast(item.area, TemperatureForecastRecords(axis, properties)))
  }

  // ---- One time-series block ----

  /** `items[0].kind[0].property[0]._type`, or the indexing panic. */
  function FirstPropertyType(items: seq<Item>): Outcome<string>
  {
    if |items| == 0 || |items[0].kind| == 0 || |items[0].kind[0].property| == 0 then
      Fail(Panic(IndexOutOfBounds))
    else
      Ok(items[0].kind[0].property[0].typeName)
  }

  /** The variant one TimeSeriesInfo contributes under block category `tag`,
      `None` when an area block's first property type is not recognised. */
  function ConvertTimeSeries(tag: string, tsi: TimeSeriesInfo): Outcome<Option<MeteorologicalInfoListItem>>
  {
    var axis := TimeAxis(tsi);
    if tag == AreaForecastTag then
      var first :- FirstPropertyType(tsi.items);
      if first == WeatherTag || first == WaveTag || first == WindTag then
        var areas :- Traverse(axis, tsi.items, WeatherItem);
        Ok(Some(MeteorologicalInfoListItem.WeatherForecast(areas)))
      else if first == PrecipitationTag then
        var areas :- Traverse(axis, tsi.items, PrecipitationItem);
        Ok(Some(MeteorologicalInfoListItem.ProbabilityOfPrecipitation(areas)))
      else if first == DominantWeatherTag || first == RepresentativeWindTag then
        var areas :- Traverse(axis, tsi.items, WeatherAndWindItem);
        Ok(Some(MeteorologicalInfoListItem.WeatherAndWindTimeSeries(areas)))
      else
        Ok(None)
    else if tag == StationForecastTag then
      var first :- FirstPropertyType(tsi.items);
      if first == TemperatureSeriesTag then
        var areas :- Traverse(axis, tsi.items, TemperatureSeriesItem);
        Ok(Some(MeteorologicalInfoListItem.TemperatureTimeSeries(areas)))
      else
        var areas :- Traverse(axis, tsi.items, TemperatureForecastItem);
        Ok(Some(MeteorologicalInfoListItem.TemperatureForecast(areas)))
    else
      Fail(Error(UnknownTimeSeriesType(tag)))
  }

  /** The items one TimeSeriesInfo appends to the block's result: none or one. */
  function SeriesItems(tag: string, tsi: TimeSeriesInfo): Outcome<seq<MeteorologicalInfoListItem>>
  {
    var variant :- ConvertTimeSeries(tag, tsi);
    Ok(match variant case None => [] case Some(v) => [v])
  }

  function SeriesStep(tag: string): TimeSeriesInfo -> Outcome<seq<MeteorologicalInfoListItem>>
  {
    tsi => SeriesItems(tag, tsi)
  }

  // ---- One block, and the whole report ----

  /** What `MeteorologicalInfoListItem::from_tmp` returns for one block. */
  function ConvertBlock(block: MeteorologicalInfosTmp): Outcome<seq<MeteorologicalInfoListItem>>
  {
    if block.typeName == ProprietaryTag then
      Ok([MeteorologicalInfoListItem.Proprietary(block.meteorologicalInfo)])
    else
      Gather(block.timeSeriesInfo, SeriesStep(block.typeName))
  }

  /** What `Report::from_tmp` returns. */
  function ConvertReport(tmp: ReportTmp): Outcome<Report>
  {
    var body :- Gather(tmp.body.meteorologicalInfos, ConvertBlock);
    Ok(Report(tmp.control, tmp.head, body))
  }

  // ---- The loops of the source ----

  /** `for Item { kind, area } in items { ...; forecasts.push(...) }`. */
  method CollectAreas<R>(axis: seq<TimeDefine>, items: seq<Item>, convert: (seq<TimeDefine>, Item) -> Outcome<AreaForecast<R>>)
    returns (r: Outcome<seq<AreaForecast<R>>>)
    ensures r == Traverse(axis, items, convert)
  {
    var forecasts: seq<AreaForecast<R>> := [];
    var j := 0;
    while j < |items|
      invariant 0 <= j <= |items|
      invariant Traverse(axis, items, convert) == Prefixed(forecasts, Traverse(axis, items[j..], convert))
    {
      assert items[j..][0] == items[j] && items[j..][1..] == items[j + 1..];
      var area := convert(axis, items[j]);
      if area.Fail? {
        return Fail(area.failure);
      }
      PrefixedPrefixed(forecasts, [area.value], Traverse(axis, items[j + 1..], convert));
      forecasts := forecasts + [area.value];
      j := j + 1;
    }
    assert items[j..] == [] && forecasts + [] == forecasts;
    return Ok(forecasts);
  }

  /** The body of the loop over a block's TimeSeriesInfos: sorts the time
      axis, classifies, converts every item and yields the variant (if any). */
  method TimeSeriesFromTmp(tag: string, tsi: TimeSeriesInfo) returns (r: Outcome<seq<MeteorologicalInfoListItem>>)
    ensures r == SeriesItems(tag, tsi)
  {
    var axis := SortByKey(tsi.timeDefines.items, TimeKey);
    var items := tsi.items;
    if tag == AreaForecastTag {
      if |items| == 0 || |items[0].kind| == 0 || |items[0].kind[0].property| == 0 {
        return Fail(Panic(IndexOutOfBounds));
      }
      var first := items[0].kind[0].property[0].typeName;
      if first == WeatherTag || first == WaveTag || first == WindTag {
        var forecasts := CollectAreas(axis, items, WeatherItem);
        if forecasts.Fail? { return Fail(forecasts.failure); }
        return Ok([MeteorologicalInfoListItem.WeatherForecast(forecasts.value)]);
      } else if first == PrecipitationTag {
        var forecasts := CollectAreas(axis, items, PrecipitationItem);
        if forecasts.Fail? { return Fail(forecasts.failure); }
        return Ok([MeteorologicalInfoListItem.ProbabilityOfPrecipitation(forecasts.value)]);
      } else if first == DominantWeatherTag || first == RepresentativeWindTag {
        var forecasts := CollectAreas(axis, items, WeatherAndWindItem);
        if forecasts.Fail? { return Fail(forecasts.failure); }
        return Ok([MeteorologicalInfoListItem.WeatherAndWindTimeSeries(forecasts.value)]);
      }
      return Ok([]);
    } else if tag == StationForecastTag {
      if |items| == 0 || |items[0].kind| == 0 || |items[0].kind[0].property| == 0 {
        return Fail(Panic(IndexOutOfBounds));
      }
      var first := items[0].kind[0].property[0].typeName;
      if first == TemperatureSeriesTag {
        var forecasts := CollectAreas(axis, items, TemperatureSeriesItem);
        if forecasts.Fail? { return Fail(forecasts.failure); }
        return Ok([MeteorologicalInfoListItem.TemperatureTimeSeries(forecasts.value)]);
      } else {
        var forecasts := CollectAreas(axis, items, TemperatureForecastItem);
        if forecasts.Fail? { return Fail(forecasts.failure); }
        return Ok([MeteorologicalInfoListItem.TemperatureForecast(forecasts.value)]);
      }
    } else {
      return Fail(Error(UnknownTimeSeriesType(tag)));
    }
  }

  /** `MeteorologicalInfoListItem::from_tmp`: a proprietary block passes
      through; otherwise each TimeSeriesInfo in turn appends its variant. */
  method ListItemsFromTmp(block: MeteorologicalInfosTmp) returns (r: Outcome<seq<MeteorologicalInfoListItem>>)
    ensures r == ConvertBlock(block)
  {
    var tag := block.typeName;
    if tag == ProprietaryTag {
      return Ok([MeteorologicalInfoListItem.Proprietary(block.meteorologicalInfo)]);
    }
    var series := block.timeSeriesInfo;
    var result: seq<MeteorologicalInfoListItem> := [];
    var i := 0;
    while i < |series|
      invariant 0 <= i <= |series|
      invariant ConvertBlock(block) == Prefixed(result, Gather(series[i..], SeriesStep(tag)))
    {
      assert series[i..][0] == series[i] && series[i..][1..] == series[i + 1..];
      var produced := TimeSeriesFromTmp(tag, series[i]);
      if produced.Fail? {
        return Fail(produced.failure);
      }
      PrefixedPrefixed(result, produced.value, Gather(series[i + 1..], SeriesStep(tag)));
      result := result + produced.value;
      i := i + 1;
    }
    assert series[i..] == [] && result + [] == result;
    return Ok(result);
  }

  /** `Report::from_tmp`: converts the blocks in document order and extends
      the body with each block's items; the first failure aborts. */
  method ReportFromTmp(tmp: ReportTmp) returns (r: Outcome<Report>)
    ensures r == ConvertReport(tmp)
  {
    var blocks := tmp.body.meteorologicalInfos;
    var body: seq<MeteorologicalInfoListItem> := [];
    var i := 0;
    while i < |blocks|
      invariant 0 <= i <= |blocks|
      invariant Gather(blocks, ConvertBlock) == Prefixed(body, Gather(blocks[i..], ConvertBlock))
    {
      assert blocks[i..][0] == blocks[i] && blocks[i..][1..] == blocks[i + 1..];
      var items := ListItemsFromTmp(blocks[i]);
      if items.Fail? {
        return Fail(items.failure);
      }
      PrefixedPrefixed(body, items.value, Gather(blocks[i + 1..], ConvertBlock));
      body := body + items.value;
      i := i + 1;
    }
    assert blocks[i..] == [] && body + [] == body;
    return Ok(Report(tmp.control, tmp.head, body));
  }
}
