/**
  Properties of the block- and report-level assembly of the prefecture
  weather forecast bulletin: how a block is classified, what each
  TimeSeriesInfo contributes, and how the report body is put together.
*/
module FukenAssembly {
  import opened Base
  import opened FukenTypes
  import opened FukenR1
  import opened FukenItems

  /** The five per-item conversions a TimeSeriesInfo can be routed to. */
  datatype Strategy =
    | WeatherStrategy
    | PrecipitationStrategy
    | WeatherAndWindStrategy
    | TemperatureSeriesStrategy
    | TemperatureForecastStrategy

  /** The classification table: the strategy chosen by the block category
      and the tag of the first property of the first item, or none when an
      area block's tag is not one the conversion knows. */
  function Route(tag: string, first: string): Option<Strategy>
    requires tag == AreaForecastTag || tag == StationForecastTag
  {
    if tag == StationForecastTag then
      Some(if first == TemperatureSeriesTag then TemperatureSeriesStrategy else TemperatureForecastStrategy)
    else if first in {WeatherTag, WaveTag, WindTag} then Some(WeatherStrategy)
    else if first == PrecipitationTag then Some(PrecipitationStrategy)
    else if first in {DominantWeatherTag, RepresentativeWindTag} then Some(WeatherAndWindStrategy)
    else None
  }

  /** The strategy whose records a variant holds; none for a proprietary block. */
  function Producer(v: MeteorologicalInfoListItem): Option<Strategy>
  {
    match v
    case WeatherForecast(_) => Some(WeatherStrategy)
    case ProbabilityOfPrecipitation(_) => Some(PrecipitationStrategy)
    case WeatherAndWindTimeSeries(_) => Some(WeatherAndWindStrategy)
    case TemperatureTimeSeries(_) => Some(TemperatureSeriesStrategy)
    case TemperatureForecast(_) => Some(TemperatureForecastStrategy)
    case Proprietary(_) => None
  }

  /** The area of each AreaForecast, in order. */
  function Areas<R>(fs: seq<AreaForecast<R>>): seq<Area>
  {
    seq(|fs|, k requires 0 <= k < |fs| => fs[k].area)
  }

  /** The area of each AreaForecast of a variant, in order. */
  function AreasOf(v: MeteorologicalInfoListItem): seq<Area>
  {
    match v
    case WeatherForecast(a) => Areas(a)
    case ProbabilityOfPrecipitation(a) => Areas(a)
    case WeatherAndWindTimeSeries(a) => Areas(a)
    case TemperatureTimeSeries(a) => Areas(a)
    case TemperatureForecast(a) => Areas(a)
    case Proprietary(_) => []
  }

  /** The area an item converts to under a strategy, or the item's failure. */
  function ConvertedArea(s: Strategy, axis: seq<TimeDefine>, item: Item): Outcome<Area>
  {
    match s
    case WeatherStrategy => var f :- WeatherItem(axis, item); Ok(f.area)
    case PrecipitationStrategy => var f :- PrecipitationItem(axis, item); Ok(f.area)
    case WeatherAndWindStrategy => var f :- WeatherAndWindItem(axis, item); Ok(f.area)
    case TemperatureSeriesStrategy => var f :- TemperatureSeriesItem(axis, item); Ok(f.area)
    case TemperatureForecastStrategy => var f :- TemperatureForecastItem(axis, item); Ok(f.area)
  }

  function ItemAreas(items: seq<Item>): (r: seq<Area>)
    ensures |r| == |items| && forall k :: 0 <= k < |r| ==> r[k] == items[k].area
  {
    seq(|items|, k requires 0 <= k < |items| => items[k].area)
  }

  /** Traversing the items with one strategy's conversion: it succeeds
      exactly when every item converts, keeps one AreaForecast per item with
      that item's area, and otherwise fails with the first item's failure. */
  lemma {:induction false} StrategyTraverse<R>(
    s: Strategy, axis: seq<TimeDefine>, items: seq<Item>, convert: (seq<TimeDefine>, Item) -> Outcome<AreaForecast<R>>)
    requires forall it: Item :: convert(axis, it).Ok? ==> ConvertedArea(s, axis, it) == Ok(convert(axis, it).value.area)
    requires forall it: Item :: convert(axis, it).Fail? ==> ConvertedArea(s, axis, it) == Fail(convert(axis, it).failure)
    requires forall it: Item :: convert(axis, it).Ok? ==> convert(axis, it).value.area == it.area
    ensures var r := Traverse(axis, items, convert);
            && (r.Ok? <==> forall i :: 0 <= i < |items| ==> ConvertedArea(s, axis, items[i]).Ok?)
            && (r.Ok? ==> |r.value| == |items| && forall k :: 0 <= k < |items| ==> r.value[k].area == items[k].area)
            && (r.Fail? ==>
                  exists j :: 0 <= j < |items| && ConvertedArea(s, axis, items[j]) == Fail(r.failure) &&
                              forall i :: 0 <= i < j ==> ConvertedArea(s, axis, items[i]).Ok?)
  {
    TraverseSpec(axis, items, convert);
    var r := Traverse(axis, items, convert);
    if r.Fail? {
      var j :| 0 <= j < |items| && convert(axis, items[j]) == Fail(r.failure) &&
               forall i :: 0 <= i < j ==> convert(axis, items[i]).Ok?;
      assert ConvertedArea(s, axis, items[j]) == Fail(r.failure);
    }
  }

  /** A TimeSeriesInfo routed to strategy `s` traverses its items with that
      strategy's conversion and wraps the AreaForecasts in `s`'s variant. */
  lemma {:induction false} RoutedBy<R>(
    s: Strategy, r: Outcome<Option<MeteorologicalInfoListItem>>, axis: seq<TimeDefine>, items: seq<Item>,
    convert: (seq<TimeDefine>, Item) -> Outcome<AreaForecast<R>>, wrap: seq<AreaForecast<R>> -> MeteorologicalInfoListItem)
    requires forall it: Item :: convert(axis, it).Ok? ==> ConvertedArea(s, axis, it) == Ok(convert(axis, it).value.area)
    requires forall it: Item :: convert(axis, it).Fail? ==> ConvertedArea(s, axis, it) == Fail(convert(axis, it).failure)
    requires forall it: Item :: convert(axis, it).Ok? ==> convert(axis, it).value.area == it.area
    requires forall fs :: Producer(wrap(fs)) == Some(s) && AreasOf(wrap(fs)) == Areas(fs)
    requires var t := Traverse(axis, items, convert);
             r == if t.Ok? then Ok(Some(wrap(t.value))) else Fail(t.failure)
    ensures RoutedOutcome(s, r, axis, items)
  {
    StrategyTraverse(s, axis, items, convert);
    var t := Traverse(axis, items, convert);
    if t.Ok? {
      assert Areas(t.value) == ItemAreas(items);
    }
  }

  /** The WeatherItem conversion keeps the item's area and is what WeatherStrategy reports. */
  lemma {:induction false} WeatherConversion(axis: seq<TimeDefine>)
    ensures forall it: Item :: WeatherItem(axis, it).Ok? ==> ConvertedArea(WeatherStrategy, axis, it) == Ok(WeatherItem(axis, it).value.area)
    ensures forall it: Item :: WeatherItem(axis, it).Fail? ==> ConvertedArea(WeatherStrategy, axis, it) == Fail(WeatherItem(axis, it).failure)
    ensures forall it: Item :: WeatherItem(axis, it).Ok? ==> WeatherItem(axis, it).value.area == it.area
  {
    forall it: Item | WeatherItem(axis, it).Ok? ensures WeatherItem(axis, it).value.area == it.area {
      WeatherItemArity(axis, it);
    }
  }

  /** The PrecipitationItem conversion keeps the item's area and is what PrecipitationStrategy reports. */
  lemma {:induction false} PrecipitationConversion(axis: seq<TimeDefine>)
    ensures forall it: Item :: PrecipitationItem(axis, it).Ok? ==> ConvertedArea(PrecipitationStrategy, axis, it) == Ok(PrecipitationItem(axis, it).value.area)
    ensures forall it: Item :: PrecipitationItem(axis, it).Fail? ==> ConvertedArea(PrecipitationStrategy, axis, it) == Fail(PrecipitationItem(axis, it).failure)
    ensures forall it: Item :: PrecipitationItem(axis, it).Ok? ==> PrecipitationItem(axis, it).value.area == it.area
  {
    forall it: Item | PrecipitationItem(axis, it).Ok? ensures PrecipitationItem(axis, it).value.area == it.area {
      PrecipitationItemOutcome(axis, it);
    }
  }

  /** The WeatherAndWindItem conversion keeps the item's area and is what WeatherAndWindStrategy reports. */
  lemma {:induction false} WeatherAndWindConversion(axis: seq<TimeDefine>)
    ensures forall it: Item :: WeatherAndWindItem(axis, it).Ok? ==> ConvertedArea(WeatherAndWindStrategy, axis, it) == Ok(WeatherAndWindItem(axis, it).value.area)
    ensures forall it: Item :: WeatherAndWindItem(axis, it).Fail? ==> ConvertedArea(WeatherAndWindStrategy, axis, it) == Fail(WeatherAndWindItem(axis, it).failure)
    ensures forall it: Item :: WeatherAndWindItem(axis, it).Ok? ==> WeatherAndWindItem(axis, it).value.area == it.area
  {
    forall it: Item | WeatherAndWindItem(axis, it).Ok? ensures WeatherAndWindItem(axis, it).value.area == it.area {
      WeatherAndWindItemArity(axis, it);
    }
  }

  /** The TemperatureSeriesItem conversion keeps the item's area and is what TemperatureSeriesStrategy reports. */
  lemma {:induction false} TemperatureSeriesConversion(axis: seq<TimeDefine>)
    ensures forall it: Item :: TemperatureSeriesItem(axis, it).Ok? ==> ConvertedArea(TemperatureSeriesStrategy, axis, it) == Ok(TemperatureSeriesItem(axis, it).value.area)
    ensures forall it: Item :: TemperatureSeriesItem(axis, it).Fail? ==> ConvertedArea(TemperatureSeriesStrategy, axis, it) == Fail(TemperatureSeriesItem(axis, it).failure)
    ensures forall it: Item :: TemperatureSeriesItem(axis, it).Ok? ==> TemperatureSeriesItem(axis, it).value.area == it.area
  {
    forall it: Item | TemperatureSeriesItem(axis, it).Ok? ensures TemperatureSeriesItem(axis, it).value.area == it.area {
      TemperatureSeriesItemOutcome(axis, it);
    }
  }

  /** The TemperatureForecastItem conversion keeps the item's area and is what TemperatureForecastStrategy reports. */
  lemma {:induction false} TemperatureForecastConversion(axis: seq<TimeDefine>)
    ensures forall it: Item :: TemperatureForecastItem(axis, it).Ok? ==> ConvertedArea(TemperatureForecastStrategy, axis, it) == Ok(TemperatureForecastItem(axis, it).value.area)
    ensures forall it: Item :: TemperatureForecastItem(axis, it).Fail? ==> ConvertedArea(TemperatureForecastStrategy, axis, it) == Fail(TemperatureForecastItem(axis, it).failure)
    ensures forall it: Item :: TemperatureForecastItem(axis, it).Ok? ==> TemperatureForecastItem(axis, it).value.area == it.area
  {
    forall it: Item | TemperatureForecastItem(axis, it).Ok? ensures TemperatureForecastItem(axis, it).value.area == it.area {
      TemperatureForecastItemOutcome(axis, it);
    }
  }

  /** What a TimeSeriesInfo routed to strategy `s` yields, given its
      axis and items: a variant of that strategy holding one AreaForecast
      per item exactly when every item converts, or the first failure. */
  ghost predicate RoutedOutcome(
    s: Strategy, r: Outcome<Option<MeteorologicalInfoListItem>>, axis: seq<TimeDefine>, items: seq<Item>)
  {
    && (r.Ok? <==> forall i :: 0 <= i < |items| ==> ConvertedArea(s, axis, items[i]).Ok?)
    && (r.Ok? ==> r.value.Some? && Producer(r.value.value) == Some(s) && AreasOf(r.value.value) == ItemAreas(items))
    && (r.Fail? ==>
          exists j :: 0 <= j < |items| && ConvertedArea(s, axis, items[j]) == Fail(r.failure) &&
                      forall i :: 0 <= i < j ==> ConvertedArea(s, axis, items[i]).Ok?)
  }

  lemma {:induction false} WeatherDispatch(tag: string, tsi: TimeSeriesInfo)
    requires tag == AreaForecastTag || tag == StationForecastTag
    requires FirstPropertyType(tsi.items).Ok? && Route(tag, FirstPropertyType(tsi.items).value) == Some(WeatherStrategy)
    ensures var t := Traverse(TimeAxis(tsi), tsi.items, WeatherItem);
            ConvertTimeSeries(tag, tsi) ==
              if t.Ok? then Ok(Some(MeteorologicalInfoListItem.WeatherForecast(t.value))) else Fail(t.failure)
  {
    var first := FirstPropertyType(tsi.items).value;
    assert tag == AreaForecastTag;
    assert first == WeatherTag || first == WaveTag || first == WindTag;
  }

  lemma {:induction false} WeatherRouted(r: Outcome<Option<MeteorologicalInfoListItem>>, axis: seq<TimeDefine>, items: seq<Item>)
    requires var t := Traverse(axis, items, WeatherItem);
             r == if t.Ok? then Ok(Some(MeteorologicalInfoListItem.WeatherForecast(t.value))) else Fail(t.failure)
    ensures RoutedOutcome(WeatherStrategy, r, axis, items)
  {
    WeatherConversion(axis);
    RoutedBy(WeatherStrategy, r, axis, items, WeatherItem, fs => MeteorologicalInfoListItem.WeatherForecast(fs));
  }

  lemma {:induction false} PrecipitationDispatch(tag: string, tsi: TimeSeriesInfo)
    requires tag == AreaForecastTag || tag == StationForecastTag
    requires FirstPropertyType(tsi.items).Ok? && Route(tag, FirstPropertyType(tsi.items).value) == Some(PrecipitationStrategy)
    ensures var t := Traverse(TimeAxis(tsi), tsi.items, PrecipitationItem);
            ConvertTimeSeries(tag, tsi) ==
              if t.Ok? then Ok(Some(MeteorologicalInfoListItem.ProbabilityOfPrecipitation(t.value))) else Fail(t.failure)
  {
    var first := FirstPropertyType(tsi.items).value;
    assert tag == AreaForecastTag;
    assert first == PrecipitationTag;
  }

  lemma {:induction false} PrecipitationRouted(r: Outcome<Option<MeteorologicalInfoListItem>>, axis: seq<TimeDefine>, items: seq<Item>)
    requires var t := Traverse(axis, items, PrecipitationItem);
             r == if t.Ok? then Ok(Some(MeteorologicalInfoListItem.ProbabilityOfPrecipitation(t.value))) else Fail(t.failure)
    ensures RoutedOutcome(PrecipitationStrategy, r, axis, items)
  {
    PrecipitationConversion(axis);
    RoutedBy(PrecipitationStrategy, r, axis, items, PrecipitationItem, fs => MeteorologicalInfoListItem.ProbabilityOfPrecipitation(fs));
  }

  lemma {:induction false} WeatherAndWindDispatch(tag: string, tsi: TimeSeriesInfo)
    requires tag == AreaForecastTag || tag == StationForecastTag
    requires FirstPropertyType(tsi.items).Ok? && Route(tag, FirstPropertyType(tsi.items).value) == Some(WeatherAndWindStrategy)
    ensures var t := Traverse(TimeAxis(tsi), tsi.items, WeatherAndWindItem);
            ConvertTimeSeries(tag, tsi) ==
              if t.Ok? then Ok(Some(MeteorologicalInfoListItem.WeatherAndWindTimeSeries(t.value))) else Fail(t.failure)
  {
    var first := FirstPropertyType(tsi.items).value;
    assert tag == AreaForecastTag;
    assert first == DominantWeatherTag || first == RepresentativeWindTag;
  }

  lemma {:induction false} WeatherAndWindRouted(r: Outcome<Option<MeteorologicalInfoListItem>>, axis: seq<TimeDefine>, items: seq<Item>)
    requires var t := Traverse(axis, items, WeatherAndWindItem);
             r == if t.Ok? then Ok(Some(MeteorologicalInfoListItem.WeatherAndWindTimeSeries(t.value))) else Fail(t.failure)
    ensures RoutedOutcome(WeatherAndWindStrategy, r, axis, items)
  {
    WeatherAndWindConversion(axis);
    RoutedBy(WeatherAndWindStrategy, r, axis, items, WeatherAndWindItem, fs => MeteorologicalInfoListItem.WeatherAndWindTimeSeries(fs));
  }

  lemma {:induction false} TemperatureSeriesDispatch(tag: string, tsi: TimeSeriesInfo)
    requires tag == AreaForecastTag || tag == StationForecastTag
    requires FirstPropertyType(tsi.items).Ok? && Route(tag, FirstPropertyType(tsi.items).value) == Some(TemperatureSeriesStrategy)
    ensures var t := Traverse(TimeAxis(tsi), tsi.items, TemperatureSeriesItem);
            ConvertTimeSeries(tag, tsi) ==
              if t.Ok? then Ok(Some(MeteorologicalInfoListItem.TemperatureTimeSeries(t.value))) else Fail(t.failure)
  {
    var first := FirstPropertyType(tsi.items).value;
    assert tag == StationForecastTag;
    assert first == TemperatureSeriesTag;
  }

  lemma {:induction false} TemperatureSeriesRouted(r: Outcome<Option<MeteorologicalInfoListItem>>, axis: seq<TimeDefine>, items: seq<Item>)
    requires var t := Traverse(axis, items, TemperatureSeriesItem);
             r == if t.Ok? then Ok(Some(MeteorologicalInfoListItem.TemperatureTimeSeries(t.value))) else Fail(t.failure)
    ensures RoutedOutcome(TemperatureSeriesStrategy, r, axis, items)
  {
    TemperatureSeriesConversion(axis);
    RoutedBy(TemperatureSeriesStrategy, r, axis, items, TemperatureSeriesItem, fs => MeteorologicalInfoListItem.TemperatureTimeSeries(fs));
  }

  lemma {:induction false} TemperatureForecastDispatch(tag: string, tsi: TimeSeriesInfo)
    requires tag == AreaForecastTag || tag == StationForecastTag
    requires FirstPropertyType(tsi.items).Ok? && Route(tag, FirstPropertyType(tsi.items).value) == Some(TemperatureForecastStrategy)
    ensures var t := Traverse(TimeAxis(tsi), tsi.items, TemperatureForecastItem);
            ConvertTimeSeries(tag, tsi) ==
              if t.Ok? then Ok(Some(MeteorologicalInfoListItem.TemperatureForecast(t.value))) else Fail(t.failure)
  {
    var first := FirstPropertyType(tsi.items).value;
    assert tag == StationForecastTag;
    assert first != TemperatureSeriesTag;
  }

  lemma {:induction false} TemperatureForecastRouted(r: Outcome<Option<MeteorologicalInfoListItem>>, axis: seq<TimeDefine>, items: seq<Item>)
    requires var t := Traverse(axis, items, TemperatureForecastItem);
             r == if t.Ok? then Ok(Some(MeteorologicalInfoListItem.TemperatureForecast(t.value))) else Fail(t.failure)
    ensures RoutedOutcome(TemperatureForecastStrategy, r, axis, items)
  {
    TemperatureForecastConversion(axis);
    RoutedBy(TemperatureForecastStrategy, r, axis, items, TemperatureForecastItem, fs => MeteorologicalInfoListItem.TemperatureForecast(fs));
  }

  /** Classification of a TimeSeriesInfo under an area or station block:
      with no first property it panics on the indexing; when the table has
      no strategy for the tag it yields nothing and converts no item;
      otherwise it yields one variant of the routed strategy, holding one
      AreaForecast per item in item order, exactly when every item converts,
      and fails with the first failing item's failure otherwise. */
  lemma {:induction false} SeriesClassification(tag: string, tsi: TimeSeriesInfo)
    requires tag == AreaForecastTag || tag == StationForecastTag
    ensures FirstPropertyType(tsi.items).Fail? ==> ConvertTimeSeries(tag, tsi) == Fail(Panic(IndexOutOfBounds))
    ensures FirstPropertyType(tsi.items).Ok? ==>
              var route := Route(tag, FirstPropertyType(tsi.items).value);
              && (route.None? ==> ConvertTimeSeries(tag, tsi) == Ok(None))
              && (route.Some? ==> RoutedOutcome(route.value, ConvertTimeSeries(tag, tsi), TimeAxis(tsi), tsi.items))
  {
    if FirstPropertyType(tsi.items).Ok? {
      match Route(tag, FirstPropertyType(tsi.items).value)
      case None =>
      case Some(WeatherStrategy) =>
        WeatherDispatch(tag, tsi);
        WeatherRouted(ConvertTimeSeries(tag, tsi), TimeAxis(tsi), tsi.items);
      case Some(PrecipitationStrategy) =>
        PrecipitationDispatch(tag, tsi);
        PrecipitationRouted(ConvertTimeSeries(tag, tsi), TimeAxis(tsi), tsi.items);
      case Some(WeatherAndWindStrategy) =>
        WeatherAndWindDispatch(tag, tsi);
        WeatherAndWindRouted(ConvertTimeSeries(tag, tsi), TimeAxis(tsi), tsi.items);
      case Some(TemperatureSeriesStrategy) =>
        TemperatureSeriesDispatch(tag, tsi);
        TemperatureSeriesRouted(ConvertTimeSeries(tag, tsi), TimeAxis(tsi), tsi.items);
      case Some(TemperatureForecastStrategy) =>
        TemperatureForecastDispatch(tag, tsi);
        TemperatureForecastRouted(ConvertTimeSeries(tag, tsi), TimeAxis(tsi), tsi.items);
    }
  }

  // ---- One block ----

  /** A proprietary block passes its MeteorologicalInfo list through as one
      item, whatever its TimeSeriesInfos hold. */
  lemma {:induction false} ProprietaryPassThrough(block: MeteorologicalInfosTmp)
    requires block.typeName == ProprietaryTag
    ensures ConvertBlock(block) == Ok([MeteorologicalInfoListItem.Proprietary(block.meteorologicalInfo)])
    ensures forall series :: ConvertBlock(block.(timeSeriesInfo := series)) == ConvertBlock(block)
  {
  }

  /** A block of any other unknown category is an error as soon as it has a
      TimeSeriesInfo, and yields nothing when it has none. */
  lemma {:induction false} UnknownBlockTag(block: MeteorologicalInfosTmp)
    requires block.typeName !in {AreaForecastTag, StationForecastTag, ProprietaryTag}
    ensures ConvertBlock(block) ==
              if |block.timeSeriesInfo| == 0 then Ok([]) else Fail(Error(UnknownTimeSeriesType(block.typeName)))
  {
    if |block.timeSeriesInfo| > 0 {
      assert SeriesStep(block.typeName)(block.timeSeriesInfo[0]) == Fail(Error(UnknownTimeSeriesType(block.typeName)));
    }
  }

  /** The variants the TimeSeriesInfos of a block contribute, in order: one
      for each that converts to a variant, none for one that is skipped. */
  ghost function Contributions(tag: string, series: seq<TimeSeriesInfo>): seq<MeteorologicalInfoListItem>
  {
    if series == [] then []
    else
      (match ConvertTimeSeries(tag, series[0]) case Ok(Some(v)) => [v] case _ => [])
      + Contributions(tag, series[1..])
  }

  lemma {:induction false} GatherSeries(tag: string, series: seq<TimeSeriesInfo>)
    ensures var g := Gather(series, SeriesStep(tag));
            && (g.Ok? <==> forall i :: 0 <= i < |series| ==> ConvertTimeSeries(tag, series[i]).Ok?)
            && (g.Ok? ==> g.value == Contributions(tag, series) && |g.value| <= |series|)
  {
    if series != [] {
      GatherSeries(tag, series[1..]);
      if forall i :: 0 <= i < |series| ==> ConvertTimeSeries(tag, series[i]).Ok? {
        assert forall i :: 0 <= i < |series[1..]| ==> ConvertTimeSeries(tag, series[1..][i]).Ok? by {
          forall i | 0 <= i < |series[1..]| ensures ConvertTimeSeries(tag, series[1..][i]).Ok? {
            assert series[1..][i] == series[i + 1];
          }
        }
      } else {
        var i :| 0 <= i < |series| && ConvertTimeSeries(tag, series[i]).Fail?;
        if i > 0 { assert series[i] == series[1..][i - 1]; }
      }
    }
  }

  /** Assembly of one non-proprietary block: it converts exactly when every
      TimeSeriesInfo does, then holds their contributions in document order
      (at most one each); otherwise it fails with the first failure. */
  lemma {:induction false} BlockAssembly(block: MeteorologicalInfosTmp)
    requires block.typeName != ProprietaryTag
    ensures var r := ConvertBlock(block);
            var tag := block.typeName;
            var series := block.timeSeriesInfo;
            && (r.Ok? <==> forall i :: 0 <= i < |series| ==> ConvertTimeSeries(tag, series[i]).Ok?)
            && (r.Ok? ==> r.value == Contributions(tag, series) && |r.value| <= |series|)
            && (r.Fail? ==>
                  exists j :: 0 <= j < |series| && ConvertTimeSeries(tag, series[j]) == Fail(r.failure) &&
                              forall i :: 0 <= i < j ==> ConvertTimeSeries(tag, series[i]).Ok?)
  {
    var tag := block.typeName;
    var series := block.timeSeriesInfo;
    GatherSeries(tag, series);
    GatherSpec(series, SeriesStep(tag));
    var r := ConvertBlock(block);
    if r.Fail? {
      var j :| 0 <= j < |series| && SeriesStep(tag)(series[j]) == Fail(r.failure) &&
               forall i :: 0 <= i < j ==> SeriesStep(tag)(series[i]).Ok?;
      assert ConvertTimeSeries(tag, series[j]) == Fail(r.failure);
    }
  }

  // ---- The report ----

  /** Assembly of the report: it converts exactly when every block does;
      then it keeps the control and head and its body is the concatenation
      of the blocks' items in document order; otherwise the first failing
      block's failure is the report's. */
  lemma {:induction false} ReportAssembly(tmp: ReportTmp)
    ensures var r := ConvertReport(tmp);
            var blocks := tmp.body.meteorologicalInfos;
            && (r.Ok? <==> forall i :: 0 <= i < |blocks| ==> ConvertBlock(blocks[i]).Ok?)
            && (r.Ok? ==>
                  && r.value.control == tmp.control
                  && r.value.head == tmp.head
                  && r.value.body == Gathered(blocks, ConvertBlock))
            && (r.Fail? ==>
                  exists j :: 0 <= j < |blocks| && ConvertBlock(blocks[j]) == Fail(r.failure) &&
                              forall i :: 0 <= i < j ==> ConvertBlock(blocks[i]).Ok?)
  {
    GatherSpec(tmp.body.meteorologicalInfos, ConvertBlock);
  }
}
