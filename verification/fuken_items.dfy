/**
  Properties of the per-item conversions of the prefecture weather forecast
  bulletin: which inputs are rejected with which error, which ones panic on
  a tag assertion, and how the records line up with the time axis.
*/
module FukenItems {
  import opened Base
  import opened Sorting
  import opened Zipping
  import opened FukenTypes
  import opened FukenR1

  function TypeName(p: Property): string { p.typeName }

  /** The tags of a property list, in order. */
  function Tags(properties: seq<Property>): (r: seq<string>)
    ensures |r| == |properties| && forall i :: 0 <= i < |r| ==> r[i] == properties[i].typeName
  {
    Image(properties, TypeName)
  }

  lemma {:induction false} SortedByAscending<T>(s: seq<T>, key: T -> Key)
    requires SortedBy(s, key)
    ensures Ascending(Image(s, key))
  {
  }

  /** The role tags in the order the source's patterns expect them. */
  lemma {:induction false} TagOrder()
    ensures Ascending(Image([WeatherTag, WaveTag, WindTag], StringKey))
    ensures Ascending(Image([WeatherTag, WindTag], StringKey))
    ensures Ascending(Image([RepresentativeWindTag, DominantWeatherTag], StringKey))
  {
    var w, v, d := StringKey(WeatherTag), StringKey(WaveTag), StringKey(WindTag);
    assert WeatherTag[0] == '天' && WaveTag[0] == '波' && WindTag[0] == '風';
    assert KeyLe(w, v) && KeyLe(v, d) && KeyLe(w, d);
    assert Image([WeatherTag, WaveTag, WindTag], StringKey) == [w, v, d];
    assert Image([WeatherTag, WindTag], StringKey) == [w, d];
    var a, b := StringKey(RepresentativeWindTag), StringKey(DominantWeatherTag);
    assert RepresentativeWindTag[..4] == DominantWeatherTag[..4];
    assert RepresentativeWindTag[4] == '代' && DominantWeatherTag[4] == '卓';
    assert a[..4] == b[..4];
    assert KeyLe(a[4..], b[4..]);
    assert KeyLe(a[3..], b[3..]);
    assert KeyLe(a[2..], b[2..]);
    assert KeyLe(a[1..], b[1..]);
    assert KeyLe(a, b);
    assert Image([RepresentativeWindTag, DominantWeatherTag], StringKey) == [a, b];
  }

  /** Sorting by tag puts the tags in key order: when the tags of
      `properties` are those of `tags` and `tags` ascends, the sorted
      properties carry exactly `tags`, position by position. */
  lemma {:induction false} SortedTags(properties: seq<Property>, tags: seq<string>)
    requires multiset(Tags(properties)) == multiset(tags)
    requires Ascending(Image(tags, StringKey))
    ensures Tags(SortByKey(properties, TypeKey)) == tags
  {
    var p := SortByKey(properties, TypeKey);
    SortedByAscending(p, TypeKey);
    TagKeys(properties);
    ImagePermutation(Tags(properties), tags, StringKey);
    AscendingUnique(Image(p, TypeKey), Image(tags, StringKey));
    forall i | 0 <= i < |p| ensures p[i].typeName == tags[i] {
      assert Image(p, TypeKey)[i] == Image(tags, StringKey)[i];
      StringKeyInjective(p[i].typeName, tags[i]);
    }
  }

  /** Keying a property by its tag is keying its tag. */
  lemma {:induction false} TagKeys(properties: seq<Property>)
    ensures Image(properties, TypeKey) == Image(Tags(properties), StringKey)
  {
    forall i | 0 <= i < |properties|
      ensures Image(properties, TypeKey)[i] == Image(Tags(properties), StringKey)[i]
    {
      assert Image(properties, TypeKey)[i] == TypeKey(properties[i]);
      assert Image(Tags(properties), StringKey)[i] == StringKey(Tags(properties)[i]);
      assert Tags(properties)[i] == properties[i].typeName;
    }
  }

  /** Sorting keeps the multiset of tags. */
  lemma {:induction false} SortedTagsPermute(properties: seq<Property>)
    ensures multiset(Tags(SortByKey(properties, TypeKey))) == multiset(Tags(properties))
  {
    ImagePermutation(SortByKey(properties, TypeKey), properties, TypeName);
  }

  /** Every element of a sorted sequence is an element of its input, and back. */
  lemma {:induction false} SortedMembers<T>(s: seq<T>, key: T -> Key, x: T)
    ensures x in SortByKey(s, key) <==> x in s
  {
    var r := SortByKey(s, key);
    assert x in r <==> x in multiset(r);
    assert x in s <==> x in multiset(s);
  }

  // ---- Alignment of a role list with the time axis ----

  /** `values`, keyed by ref id, carry exactly the time ids of `times`. */
  ghost predicate Covers<T>(values: seq<T>, key: T -> Key, times: seq<TimeDefine>)
  {
    multiset(Image(values, key)) == multiset(Image(times, TimeKey))
  }

  /** A role list that covers the time ids, once both are sorted, has one
      value per time and the k-th value's ref id is the k-th time's id. */
  lemma {:induction false} Paired<T>(values: seq<T>, key: T -> Key, times: seq<TimeDefine>)
    requires Covers(values, key, times)
    ensures |SortByKey(values, key)| == |times|
    ensures forall k :: 0 <= k < |times| ==> key(SortByKey(values, key)[k]) == NatKey(SortByKey(times, TimeKey)[k].timeId)
  {
    SortedPairing(times, TimeKey, values, key);
  }

  lemma {:induction false} NatKeyInjective(a: nat, b: nat)
    requires NatKey(a) == NatKey(b)
    ensures a == b
  {
    assert NatKey(a)[0] == NatKey(b)[0];
  }

  lemma {:induction false} OptionKeyIsId(o: Option<nat>, b: nat)
    requires OptionKey(o) == NatKey(b)
    ensures o == Some(b)
  {
    assert OptionKey(o)[0] == NatKey(b)[0];
  }

  /** The sorted time axis ascends by time id and holds the same TimeDefines. */
  lemma {:induction false} AxisAscending(tsi: TimeSeriesInfo)
    ensures multiset(TimeAxis(tsi)) == multiset(tsi.timeDefines.items)
    ensures forall k, l :: 0 <= k < l < |TimeAxis(tsi)| ==> TimeAxis(tsi)[k].timeId <= TimeAxis(tsi)[l].timeId
  {
    var axis := TimeAxis(tsi);
    forall k, l | 0 <= k < l < |axis| ensures axis[k].timeId <= axis[l].timeId {
      assert KeyLe(TimeKey(axis[k]), TimeKey(axis[l]));
      assert TimeKey(axis[k])[1..] == [];
    }
  }

  // ---- The 天気/波/風 strategy ----

  /** The tags the 天気/波/風 strategy asserts, for `n` properties. */
  function WeatherTags(n: nat): (r: seq<string>)
    ensures |r| == (if n == 3 then 3 else 2)
  {
    if n == 3 then [WeatherTag, WaveTag, WindTag] else [WeatherTag, WindTag]
  }

  /** A property holding every sub-part the 天気 position reads. */
  predicate FullWeatherProperty(p: Property)
  {
    p.detailForecast.Some? && p.weatherPart.Some? && p.weatherCodePart.Some?
  }

  /** The positional pattern of the strategy on the sorted properties: the
      first holds everything the 天気 position reads, the others a detail
      forecast. */
  predicate WeatherPattern(p: seq<Property>)
  {
    |p| > 0 && FullWeatherProperty(p[0]) && forall j :: 1 <= j < |p| ==> p[j].detailForecast.Some?
  }

  /** What a property's role needs: a detail forecast for every role, and
      weather and weather codes for 天気. */
  predicate WeatherRoleComplete(p: Property)
  {
    p.detailForecast.Some? && (p.typeName == WeatherTag ==> p.weatherPart.Some? && p.weatherCodePart.Some?)
  }

  lemma {:induction false} WeatherItemUnmatched(axis: seq<TimeDefine>, item: Item)
    requires |Flatten(item.kind)| == 2 || |Flatten(item.kind)| == 3
    requires !WeatherPattern(SortByKey(Flatten(item.kind), TypeKey))
    ensures WeatherItem(axis, item) == Fail(Error(MissingSubPart))
  {
  }

  /** The tag assertions of the strategy, position by position. */
  lemma {:induction false} WeatherTagsPositions(p: seq<Property>)
    requires |p| == 2 || |p| == 3
    ensures Tags(p) == WeatherTags(|p|) <==>
              if |p| == 3 then p[0].typeName == WeatherTag && p[1].typeName == WaveTag && p[2].typeName == WindTag
              else p[0].typeName == WeatherTag && p[1].typeName == WindTag
  {
    if |p| == 3 && p[0].typeName == WeatherTag && p[1].typeName == WaveTag && p[2].typeName == WindTag {
      assert Tags(p) == WeatherTags(3);
    }
    if |p| == 2 && p[0].typeName == WeatherTag && p[1].typeName == WindTag {
      assert Tags(p) == WeatherTags(2);
    }
  }

  lemma {:induction false} WeatherItemTagAsserts(axis: seq<TimeDefine>, item: Item)
    requires |Flatten(item.kind)| == 2 || |Flatten(item.kind)| == 3
    requires WeatherPattern(SortByKey(Flatten(item.kind), TypeKey))
    ensures var r := WeatherItem(axis, item);
            && (r.Ok? <==> Tags(SortByKey(Flatten(item.kind), TypeKey)) == WeatherTags(|Flatten(item.kind)|))
            && (r.Fail? ==> r.failure.Panic? && r.failure.panic.AssertEqFailed?)
  {
    WeatherTagsPositions(SortByKey(Flatten(item.kind), TypeKey));
  }

  lemma {:induction false} WeatherItemMatched(axis: seq<TimeDefine>, item: Item)
    requires |Flatten(item.kind)| == 2 || |Flatten(item.kind)| == 3
    requires WeatherPattern(SortByKey(Flatten(item.kind), TypeKey))
    requires Tags(SortByKey(Flatten(item.kind), TypeKey)) == WeatherTags(|Flatten(item.kind)|)
    ensures var n := |Flatten(item.kind)|;
            var p := SortByKey(Flatten(item.kind), TypeKey);
            WeatherItem(axis, item) ==
              Ok(AreaForecast(item.area, WeatherForecasts(axis, p[0], if n == 3 then Some(p[1]) else None, p[n - 1])))
  {
  }

  /** The records of one area never outnumber the times; record k is at
      time k; wave heights are present exactly when a 波 property is. */
  lemma {:induction false} WeatherForecastsShape(axis: seq<TimeDefine>, weather: Property, wave: Option<Property>, wind: Property)
    requires FullWeatherProperty(weather)
    requires wave.Some? ==> wave.value.detailForecast.Some?
    requires wind.detailForecast.Some?
    ensures var r := WeatherForecasts(axis, weather, wave, wind);
            && |r| <= |axis|
            && forall k :: 0 <= k < |r| ==> r[k].time == axis[k] && (r[k].waveHeight.Some? <==> wave.Some?)
  {
    var waves := if wave.Some? then Some(SortByKey(wave.value.detailForecast.value.waveHeightForecastPart, WaveKey)) else None;
    WeatherRecordsShape(
      axis,
      SortByKey(weather.detailForecast.value.weatherForecastPart, WeatherTextKey),
      SortByKey(weather.weatherPart.value.weather, WeatherKey),
      SortByKey(weather.weatherCodePart.value.weatherCode, WeatherCodeKey),
      waves,
      SortByKey(wind.detailForecast.value.windForecastPart, WindKey));
  }

  lemma {:induction false} WeatherRecordsShape(
    times: seq<TimeDefine>, texts: seq<WeatherForecastPart>, weathers: seq<Weather>,
    codes: seq<WeatherCode>, waves: Option<seq<WaveHeightForecastPart>>, winds: seq<WindForecastPart>)
    ensures var r := WeatherRecords(times, texts, weathers, codes, waves, winds);
            && |r| <= |times|
            && forall k :: 0 <= k < |r| ==> r[k].time == times[k] && (r[k].waveHeight.Some? <==> waves.Some?)
  {
    var r := WeatherRecords(times, texts, weathers, codes, waves, winds);
    assert Min(|times|, |texts|) <= |times|;
  }

  /** Three properties give wave heights, two do not, any other count is an error. */
  lemma {:induction false} WeatherItemArity(axis: seq<TimeDefine>, item: Item)
    ensures var n := |Flatten(item.kind)|;
            n != 2 && n != 3 ==> WeatherItem(axis, item) == Fail(Error(InvalidPropertyCount))
    ensures var r := WeatherItem(axis, item);
            r.Ok? ==>
              && r.value.area == item.area
              && |r.value.forecast| <= |axis|
              && forall k :: 0 <= k < |r.value.forecast| ==>
                   && r.value.forecast[k].time == axis[k]
                   && (r.value.forecast[k].waveHeight.Some? <==> |Flatten(item.kind)| == 3)
  {
    var n := |Flatten(item.kind)|;
    if n == 2 || n == 3 {
      var p := SortByKey(Flatten(item.kind), TypeKey);
      if !WeatherPattern(p) {
        WeatherItemUnmatched(axis, item);
      } else if Tags(p) != WeatherTags(n) {
        WeatherItemTagAsserts(axis, item);
      } else {
        WeatherItemMatched(axis, item);
        WeatherForecastsShape(axis, p[0], if n == 3 then Some(p[1]) else None, p[n - 1]);
      }
    }
  }

  /** A property without a detail forecast, wherever it sorts, is a missing sub-part. */
  lemma {:induction false} WeatherItemMissingDetail(axis: seq<TimeDefine>, item: Item)
    requires var ps := Flatten(item.kind);
             && (|ps| == 2 || |ps| == 3)
             && exists i :: 0 <= i < |ps| && ps[i].detailForecast.None?
    ensures WeatherItem(axis, item) == Fail(Error(MissingSubPart))
  {
    var ps := Flatten(item.kind);
    var i :| 0 <= i < |ps| && ps[i].detailForecast.None?;
    SortedMembers(ps, TypeKey, ps[i]);
    WeatherItemUnmatched(axis, item);
  }

  /** With every sub-part present, the item converts exactly when its tags
      are 天気 and 風 (and 波 for three), in any order; otherwise a tag
      assertion panics. */
  lemma {:induction false} WeatherItemTagCheck(axis: seq<TimeDefine>, item: Item)
    requires var ps := Flatten(item.kind);
             && (|ps| == 2 || |ps| == 3)
             && forall i :: 0 <= i < |ps| ==> FullWeatherProperty(ps[i])
    ensures var ps := Flatten(item.kind);
            WeatherItem(axis, item).Ok? <==> multiset(Tags(ps)) == multiset(WeatherTags(|ps|))
    ensures WeatherItem(axis, item).Fail? ==>
              WeatherItem(axis, item).failure.Panic? && WeatherItem(axis, item).failure.panic.AssertEqFailed?
  {
    var ps := Flatten(item.kind);
    var p := SortByKey(ps, TypeKey);
    var w := WeatherTags(|ps|);
    forall j | 0 <= j < |p| ensures FullWeatherProperty(p[j]) {
      SortedMembers(ps, TypeKey, p[j]);
    }
    assert WeatherPattern(p);
    SortedTagsPermute(ps);
    if multiset(Tags(ps)) == multiset(w) {
      TagOrder();
      SortedTags(ps, w);
      WeatherItemMatched(axis, item);
    } else {
      WeatherItemTagAsserts(axis, item);
    }
  }

  /** With the right tags, the item converts exactly when every property has
      what its role needs; otherwise it is a missing sub-part, never a panic. */
  lemma {:induction false} WeatherItemParts(axis: seq<TimeDefine>, item: Item)
    requires var ps := Flatten(item.kind);
             && (|ps| == 2 || |ps| == 3)
             && multiset(Tags(ps)) == multiset(WeatherTags(|ps|))
    ensures var ps := Flatten(item.kind);
            WeatherItem(axis, item).Ok? <==> forall i :: 0 <= i < |ps| ==> WeatherRoleComplete(ps[i])
    ensures WeatherItem(axis, item).Fail? ==> WeatherItem(axis, item) == Fail(Error(MissingSubPart))
  {
    var ps := Flatten(item.kind);
    var p := SortByKey(ps, TypeKey);
    TagOrder();
    SortedTags(ps, WeatherTags(|ps|));
    WeatherRolesSorted(ps, p);
    if WeatherPattern(p) {
      WeatherItemMatched(axis, item);
    } else {
      WeatherItemUnmatched(axis, item);
    }
  }

  /** When the sorted tags are the expected ones, every property has what its
      role needs exactly when the sorted properties match the pattern. */
  lemma {:induction false} WeatherRolesSorted(ps: seq<Property>, p: seq<Property>)
    requires multiset(p) == multiset(ps)
    requires Tags(p) == WeatherTags(|ps|)
    ensures (forall i :: 0 <= i < |ps| ==> WeatherRoleComplete(ps[i])) <==> WeatherPattern(p)
  {
    assert |p| == |ps| by { assert |multiset(p)| == |multiset(ps)|; }
    assert p[0].typeName == WeatherTag;
    assert forall j :: 1 <= j < |p| ==> p[j].typeName != WeatherTag;
    if forall i :: 0 <= i < |ps| ==> WeatherRoleComplete(ps[i]) {
      forall j | 0 <= j < |p| ensures WeatherRoleComplete(p[j]) {
        assert p[j] in multiset(ps);
      }
    }
    if WeatherPattern(p) {
      forall i | 0 <= i < |ps| ensures WeatherRoleComplete(ps[i]) {
        assert ps[i] in multiset(p);
      }
    }
  }

  /** A converted item has two or three properties, sorted into the
      pattern, carrying the expected tags, and its records are built from
      the 天気, 波 and 風 properties in that order. */
  lemma {:induction false} WeatherItemOk(axis: seq<TimeDefine>, item: Item)
    requires WeatherItem(axis, item).Ok?
    ensures var n := |Flatten(item.kind)|; n == 2 || n == 3
    ensures var n := |Flatten(item.kind)|;
            var p := SortByKey(Flatten(item.kind), TypeKey);
            && WeatherPattern(p)
            && Tags(p) == WeatherTags(n)
            && WeatherItem(axis, item).value ==
                 AreaForecast(item.area, WeatherForecasts(axis, p[0], if n == 3 then Some(p[1]) else None, p[n - 1]))
  {
    WeatherItemArity(axis, item);
    WeatherItemPatternNeeded(axis, item);
    WeatherItemTagAsserts(axis, item);
    WeatherItemMatched(axis, item);
  }

  lemma {:induction false} WeatherItemPatternNeeded(axis: seq<TimeDefine>, item: Item)
    requires |Flatten(item.kind)| == 2 || |Flatten(item.kind)| == 3
    ensures WeatherItem(axis, item).Ok? ==> WeatherPattern(SortByKey(Flatten(item.kind), TypeKey))
  {
    if !WeatherPattern(SortByKey(Flatten(item.kind), TypeKey)) {
      WeatherItemUnmatched(axis, item);
    }
  }

  /** The role lists of a property of the 天気/波/風 strategy that its tag
      makes the source read cover the time ids of `times`. */
  ghost predicate WeatherRolesCover(p: Property, times: seq<TimeDefine>)
  {
    && (p.typeName == WeatherTag && p.detailForecast.Some? ==>
          Covers(p.detailForecast.value.weatherForecastPart, WeatherTextKey, times))
    && (p.typeName == WeatherTag && p.weatherPart.Some? ==> Covers(p.weatherPart.value.weather, WeatherKey, times))
    && (p.typeName == WeatherTag && p.weatherCodePart.Some? ==>
          Covers(p.weatherCodePart.value.weatherCode, WeatherCodeKey, times))
    && (p.typeName == WaveTag && p.detailForecast.Some? ==>
          Covers(p.detailForecast.value.waveHeightForecastPart, WaveKey, times))
    && (p.typeName == WindTag && p.detailForecast.Some? ==>
          Covers(p.detailForecast.value.windForecastPart, WindKey, times))
  }

  /** Zipping role lists already lined up with the axis gives one record
      per time whose values all carry that time's id. */
  lemma {:induction false} WeatherRecordsAligned(
    axis: seq<TimeDefine>, texts: seq<WeatherForecastPart>, weathers: seq<Weather>,
    codes: seq<WeatherCode>, waves: Option<seq<WaveHeightForecastPart>>, winds: seq<WindForecastPart>)
    requires |texts| == |weathers| == |codes| == |winds| == |axis|
    requires waves.Some? ==> |waves.value| == |axis|
    requires forall k :: 0 <= k < |axis| ==>
               && WeatherTextKey(texts[k]) == NatKey(axis[k].timeId)
               && WeatherKey(weathers[k]) == NatKey(axis[k].timeId)
               && WeatherCodeKey(codes[k]) == NatKey(axis[k].timeId)
               && WindKey(winds[k]) == NatKey(axis[k].timeId)
               && (waves.Some? ==> WaveKey(waves.value[k]) == NatKey(axis[k].timeId))
    ensures var f := WeatherRecords(axis, texts, weathers, codes, waves, winds);
            && |f| == |axis|
            && forall k :: 0 <= k < |f| ==>
                 && f[k].time == axis[k]
                 && f[k].weatherText.refId == axis[k].timeId
                 && f[k].weather.refId == Some(axis[k].timeId)
                 && f[k].weatherCode.refId == axis[k].timeId
                 && f[k].wind.refId == axis[k].timeId
                 && (f[k].waveHeight.Some? ==> f[k].waveHeight.value.refId == axis[k].timeId)
  {
    var f := WeatherRecords(axis, texts, weathers, codes, waves, winds);
    forall k | 0 <= k < |f|
      ensures f[k].weatherText.refId == axis[k].timeId && f[k].weather.refId == Some(axis[k].timeId)
      ensures f[k].weatherCode.refId == axis[k].timeId && f[k].wind.refId == axis[k].timeId
      ensures f[k].waveHeight.Some? ==> f[k].waveHeight.value.refId == axis[k].timeId
    {
      NatKeyInjective(texts[k].refId, axis[k].timeId);
      OptionKeyIsId(weathers[k].refId, axis[k].timeId);
      NatKeyInjective(codes[k].refId, axis[k].timeId);
      NatKeyInjective(winds[k].refId, axis[k].timeId);
      if waves.Some? { NatKeyInjective(waves.value[k].refId, axis[k].timeId); }
    }
  }

  /** The records built from properties whose role lists cover the time
      ids: one record per time, every value carrying its time's id. */
  lemma {:induction false} WeatherForecastsAligned(times: seq<TimeDefine>, weather: Property, wave: Option<Property>, wind: Property)
    requires FullWeatherProperty(weather) && weather.typeName == WeatherTag && WeatherRolesCover(weather, times)
    requires wave.Some? ==> wave.value.detailForecast.Some? && wave.value.typeName == WaveTag && WeatherRolesCover(wave.value, times)
    requires wind.detailForecast.Some? && wind.typeName == WindTag && WeatherRolesCover(wind, times)
    ensures var axis := SortByKey(times, TimeKey);
            var f := WeatherForecasts(axis, weather, wave, wind);
            && |f| == |times|
            && forall k :: 0 <= k < |f| ==>
                 && f[k].time == axis[k]
                 && f[k].weatherText.refId == axis[k].timeId
                 && f[k].weather.refId == Some(axis[k].timeId)
                 && f[k].weatherCode.refId == axis[k].timeId
                 && f[k].wind.refId == axis[k].timeId
                 && (f[k].waveHeight.Some? ==> f[k].waveHeight.value.refId == axis[k].timeId)
  {
    var axis := SortByKey(times, TimeKey);
    Paired(weather.detailForecast.value.weatherForecastPart, WeatherTextKey, times);
    Paired(weather.weatherPart.value.weather, WeatherKey, times);
    Paired(weather.weatherCodePart.value.weatherCode, WeatherCodeKey, times);
    Paired(wind.detailForecast.value.windForecastPart, WindKey, times);
    if wave.Some? {
      Paired(wave.value.detailForecast.value.waveHeightForecastPart, WaveKey, times);
    }
    WeatherRecordsAligned(
      axis,
      SortByKey(weather.detailForecast.value.weatherForecastPart, WeatherTextKey),
      SortByKey(weather.weatherPart.value.weather, WeatherKey),
      SortByKey(weather.weatherCodePart.value.weatherCode, WeatherCodeKey),
      if wave.Some? then Some(SortByKey(wave.value.detailForecast.value.waveHeightForecastPart, WaveKey)) else None,
      SortByKey(wind.detailForecast.value.windForecastPart, WindKey));
  }

  /** Alignment by sorted position: when every role list the item's tags
      make the source read carries exactly the time ids of the block, the
      item has one record per time, record k is at the k-th time of the
      ascending axis, and every value in it has that time's id. */
  lemma {:induction false} WeatherItemAlignment(times: seq<TimeDefine>, item: Item)
    requires WeatherItem(SortByKey(times, TimeKey), item).Ok?
    requires forall i :: 0 <= i < |Flatten(item.kind)| ==> WeatherRolesCover(Flatten(item.kind)[i], times)
    ensures var axis := SortByKey(times, TimeKey);
            var f := WeatherItem(axis, item).value.forecast;
            && |f| == |times|
            && forall k :: 0 <= k < |f| ==>
                 && f[k].time == axis[k]
                 && f[k].weatherText.refId == axis[k].timeId
                 && f[k].weather.refId == Some(axis[k].timeId)
                 && f[k].weatherCode.refId == axis[k].timeId
                 && f[k].wind.refId == axis[k].timeId
                 && (f[k].waveHeight.Some? ==> f[k].waveHeight.value.refId == axis[k].timeId)
  {
    var axis := SortByKey(times, TimeKey);
    var ps := Flatten(item.kind);
    var p := SortByKey(ps, TypeKey);
    var n := |ps|;
    WeatherItemOk(axis, item);
    CoversSorted(ps, p, times);
    WeatherTagsPositions(p);
    WeatherForecastsAligned(times, p[0], if n == 3 then Some(p[1]) else None, p[n - 1]);
  }

  lemma {:induction false} CoversSorted(ps: seq<Property>, p: seq<Property>, times: seq<TimeDefine>)
    requires multiset(p) == multiset(ps)
    requires forall i :: 0 <= i < |ps| ==> WeatherRolesCover(ps[i], times)
    ensures forall j :: 0 <= j < |p| ==> WeatherRolesCover(p[j], times)
  {
    forall j | 0 <= j < |p| ensures WeatherRolesCover(p[j], times) {
      assert p[j] in multiset(ps);
    }
  }

  // ---- The 3-hour (３時間内代表風/３時間内卓越天気) strategy ----

  /** The tags the 3-hour strategy asserts, in sorted order. */
  function WindWeatherTags(): seq<string>
  {
    [RepresentativeWindTag, DominantWeatherTag]
  }

  /** A property holding every sub-part either position of the 3-hour strategy reads. */
  predicate FullWindWeatherProperty(p: Property)
  {
    p.windDirectionPart.Some? && p.windSpeedPart.Some? && p.weatherPart.Some?
  }

  /** The positional pattern on the two sorted properties: wind direction
      and speed first, weather second. */
  predicate WindWeatherPattern(p: seq<Property>)
  {
    |p| == 2 && p[0].windDirectionPart.Some? && p[0].windSpeedPart.Some? && p[1].weatherPart.Some?
  }

  /** What a property's role needs: wind direction and speed for
      ３時間内代表風, weather for ３時間内卓越天気. */
  predicate WindWeatherRoleComplete(p: Property)
  {
    && (p.typeName == RepresentativeWindTag ==> p.windDirectionPart.Some? && p.windSpeedPart.Some?)
    && (p.typeName == DominantWeatherTag ==> p.weatherPart.Some?)
  }

  lemma {:induction false} WindWeatherTagsPositions(p: seq<Property>)
    requires |p| == 2
    ensures Tags(p) == WindWeatherTags() <==> p[0].typeName == RepresentativeWindTag && p[1].typeName == DominantWeatherTag
  {
    if p[0].typeName == RepresentativeWindTag && p[1].typeName == DominantWeatherTag {
      assert Tags(p) == WindWeatherTags();
    }
  }

  /** Any count but two is an error; a converted item keeps its area and
      has at most one record per time, record k at time k. */
  lemma {:induction false} WeatherAndWindItemArity(axis: seq<TimeDefine>, item: Item)
    ensures |Flatten(item.kind)| != 2 ==> WeatherAndWindItem(axis, item) == Fail(Error(InvalidPropertyCount))
    ensures var r := WeatherAndWindItem(axis, item);
            r.Ok? ==>
              && r.value.area == item.area
              && |r.value.forecast| <= |axis|
              && forall k :: 0 <= k < |r.value.forecast| ==> r.value.forecast[k].time == axis[k]
  {
    if WeatherAndWindItem(axis, item).Ok? {
      WeatherAndWindItemOk(axis, item);
      var p := SortByKey(Flatten(item.kind), TypeKey);
      WeatherAndWindForecastsShape(axis, p[0], p[1]);
    }
  }

  lemma {:induction false} WeatherAndWindItemUnmatched(axis: seq<TimeDefine>, item: Item)
    requires |Flatten(item.kind)| == 2
    requires !WindWeatherPattern(SortByKey(Flatten(item.kind), TypeKey))
    ensures WeatherAndWindItem(axis, item) == Fail(Error(MissingSubPart))
  {
  }

  lemma {:induction false} WeatherAndWindItemTagAsserts(axis: seq<TimeDefine>, item: Item)
    requires WindWeatherPattern(SortByKey(Flatten(item.kind), TypeKey))
    ensures var r := WeatherAndWindItem(axis, item);
            && (r.Ok? <==> Tags(SortByKey(Flatten(item.kind), TypeKey)) == WindWeatherTags())
            && (r.Fail? ==> r.failure.Panic? && r.failure.panic.AssertEqFailed?)
  {
    WindWeatherTagsPositions(SortByKey(Flatten(item.kind), TypeKey));
  }

  /** A converted item has two properties in the pattern, with the expected
      tags, and its records come from the wind and the weather property. */
  lemma {:induction false} WeatherAndWindItemOk(axis: seq<TimeDefine>, item: Item)
    requires WeatherAndWindItem(axis, item).Ok?
    ensures var p := SortByKey(Flatten(item.kind), TypeKey);
            && WindWeatherPattern(p)
            && Tags(p) == WindWeatherTags()
            && WeatherAndWindItem(axis, item).value == AreaForecast(item.area, WeatherAndWindForecasts(axis, p[0], p[1]))
  {
    WindWeatherTagsPositions(SortByKey(Flatten(item.kind), TypeKey));
  }

  lemma {:induction false} WeatherAndWindForecastsShape(axis: seq<TimeDefine>, wind: Property, weather: Property)
    requires wind.windDirectionPart.Some? && wind.windSpeedPart.Some? && weather.weatherPart.Some?
    ensures var r := WeatherAndWindForecasts(axis, wind, weather);
            |r| <= |axis| && forall k :: 0 <= k < |r| ==> r[k].time == axis[k]
  {
  }

  /** With every sub-part present on both properties, the item converts
      exactly when its tags are ３時間内代表風 and ３時間内卓越天気, in any
      order; otherwise a tag assertion panics. */
  lemma {:induction false} WeatherAndWindItemTagCheck(axis: seq<TimeDefine>, item: Item)
    requires var ps := Flatten(item.kind);
             |ps| == 2 && forall i :: 0 <= i < |ps| ==> FullWindWeatherProperty(ps[i])
    ensures WeatherAndWindItem(axis, item).Ok? <==> multiset(Tags(Flatten(item.kind))) == multiset(WindWeatherTags())
    ensures WeatherAndWindItem(axis, item).Fail? ==>
              WeatherAndWindItem(axis, item).failure.Panic? && WeatherAndWindItem(axis, item).failure.panic.AssertEqFailed?
  {
    var ps := Flatten(item.kind);
    var p := SortByKey(ps, TypeKey);
    forall j | 0 <= j < |p| ensures FullWindWeatherProperty(p[j]) {
      SortedMembers(ps, TypeKey, p[j]);
    }
    assert WindWeatherPattern(p);
    SortedTagsPermute(ps);
    WeatherAndWindItemTagAsserts(axis, item);
    if multiset(Tags(ps)) == multiset(WindWeatherTags()) {
      TagOrder();
      SortedTags(ps, WindWeatherTags());
    }
  }

  /** With the right tags, the item converts exactly when each property has
      what its role needs; otherwise it is a missing sub-part, never a panic. */
  lemma {:induction false} WeatherAndWindItemParts(axis: seq<TimeDefine>, item: Item)
    requires var ps := Flatten(item.kind);
             |ps| == 2 && multiset(Tags(ps)) == multiset(WindWeatherTags())
    ensures var ps := Flatten(item.kind);
            WeatherAndWindItem(axis, item).Ok? <==> forall i :: 0 <= i < |ps| ==> WindWeatherRoleComplete(ps[i])
    ensures WeatherAndWindItem(axis, item).Fail? ==> WeatherAndWindItem(axis, item) == Fail(Error(MissingSubPart))
  {
    var ps := Flatten(item.kind);
    var p := SortByKey(ps, TypeKey);
    TagOrder();
    SortedTags(ps, WindWeatherTags());
    WindWeatherRolesSorted(ps, p);
    if WindWeatherPattern(p) {
      WeatherAndWindItemTagAsserts(axis, item);
    } else {
      WeatherAndWindItemUnmatched(axis, item);
    }
  }

  lemma {:induction false} WindWeatherRolesSorted(ps: seq<Property>, p: seq<Property>)
    requires multiset(p) == multiset(ps)
    requires Tags(p) == WindWeatherTags()
    ensures (forall i :: 0 <= i < |ps| ==> WindWeatherRoleComplete(ps[i])) <==> WindWeatherPattern(p)
  {
    assert |p| == |ps| by { assert |multiset(p)| == |multiset(ps)|; }
    assert RepresentativeWindTag != DominantWeatherTag by {
      assert RepresentativeWindTag[4] != DominantWeatherTag[4];
    }
    assert p[0].typeName == RepresentativeWindTag && p[1].typeName == DominantWeatherTag;
    if forall i :: 0 <= i < |ps| ==> WindWeatherRoleComplete(ps[i]) {
      assert p[0] in multiset(ps) && p[1] in multiset(ps);
    }
    if WindWeatherPattern(p) {
      forall i | 0 <= i < |ps| ensures WindWeatherRoleComplete(ps[i]) {
        assert ps[i] in multiset(p);
      }
    }
  }

  /** The role lists of a 3-hour property that its tag makes the source
      read cover the time ids of `times`. */
  ghost predicate WindWeatherRolesCover(p: Property, times: seq<TimeDefine>)
  {
    && (p.typeName == RepresentativeWindTag && p.windDirectionPart.Some? ==>
          Covers(p.windDirectionPart.value.values, WindDirectionKey, times))
    && (p.typeName == RepresentativeWindTag && p.windSpeedPart.Some? ==>
          Covers(p.windSpeedPart.value.values, WindSpeedKey, times))
    && (p.typeName == DominantWeatherTag && p.weatherPart.Some? ==> Covers(p.weatherPart.value.weather, WeatherKey, times))
  }

  lemma {:induction false} WeatherAndWindRecordsAligned(
    axis: seq<TimeDefine>, directions: seq<WindDirection>, speeds: seq<WindSpeedLevel>, weathers: seq<Weather>)
    requires |directions| == |speeds| == |weathers| == |axis|
    requires forall k :: 0 <= k < |axis| ==>
               && WindDirectionKey(directions[k]) == NatKey(axis[k].timeId)
               && WindSpeedKey(speeds[k]) == NatKey(axis[k].timeId)
               && WeatherKey(weathers[k]) == NatKey(axis[k].timeId)
    ensures var f := WeatherAndWindRecords(axis, directions, speeds, weathers);
            && |f| == |axis|
            && forall k :: 0 <= k < |f| ==>
                 && f[k].time == axis[k]
                 && f[k].windDirection.refId == axis[k].timeId
                 && f[k].windSpeed.refId == axis[k].timeId
                 && f[k].weather.refId == Some(axis[k].timeId)
  {
    forall k | 0 <= k < |axis|
      ensures directions[k].refId == axis[k].timeId && speeds[k].refId == axis[k].timeId
      ensures weathers[k].refId == Some(axis[k].timeId)
    {
      NatKeyInjective(directions[k].refId, axis[k].timeId);
      NatKeyInjective(speeds[k].refId, axis[k].timeId);
      OptionKeyIsId(weathers[k].refId, axis[k].timeId);
    }
  }

  lemma {:induction false} WeatherAndWindForecastsAligned(times: seq<TimeDefine>, wind: Property, weather: Property)
    requires wind.windDirectionPart.Some? && wind.windSpeedPart.Some? && weather.weatherPart.Some?
    requires wind.typeName == RepresentativeWindTag && WindWeatherRolesCover(wind, times)
    requires weather.typeName == DominantWeatherTag && WindWeatherRolesCover(weather, times)
    ensures var axis := SortByKey(times, TimeKey);
            var f := WeatherAndWindForecasts(axis, wind, weather);
            && |f| == |times|
            && forall k :: 0 <= k < |f| ==>
                 && f[k].time == axis[k]
                 && f[k].windDirection.refId == axis[k].timeId
                 && f[k].windSpeed.refId == axis[k].timeId
                 && f[k].weather.refId == Some(axis[k].timeId)
  {
    Paired(wind.windDirectionPart.value.values, WindDirectionKey, times);
    Paired(wind.windSpeedPart.value.values, WindSpeedKey, times);
    Paired(weather.weatherPart.value.weather, WeatherKey, times);
    WeatherAndWindRecordsAligned(
      SortByKey(times, TimeKey),
      SortByKey(wind.windDirectionPart.value.values, WindDirectionKey),
      SortByKey(wind.windSpeedPart.value.values, WindSpeedKey),
      SortByKey(weather.weatherPart.value.weather, WeatherKey));
  }

  /** Alignment by sorted position for the 3-hour strategy. */
  lemma {:induction false} WeatherAndWindItemAlignment(times: seq<TimeDefine>, item: Item)
    requires WeatherAndWindItem(SortByKey(times, TimeKey), item).Ok?
    requires forall i :: 0 <= i < |Flatten(item.kind)| ==> WindWeatherRolesCover(Flatten(item.kind)[i], times)
    ensures var axis := SortByKey(times, TimeKey);
            var f := WeatherAndWindItem(axis, item).value.forecast;
            && |f| == |times|
            && forall k :: 0 <= k < |f| ==>
                 && f[k].time == axis[k]
                 && f[k].windDirection.refId == axis[k].timeId
                 && f[k].windSpeed.refId == axis[k].timeId
                 && f[k].weather.refId == Some(axis[k].timeId)
  {
    var axis := SortByKey(times, TimeKey);
    var ps := Flatten(item.kind);
    var p := SortByKey(ps, TypeKey);
    WeatherAndWindItemOk(axis, item);
    WindWeatherTagsPositions(p);
    assert p[0] in multiset(ps) && p[1] in multiset(ps);
    WeatherAndWindForecastsAligned(times, p[0], p[1]);
  }

  // ---- The 降水確率 strategy ----

  /** Exactly one property, which must hold a precipitation part (its tag is
      not looked at); the records are at the times of the axis. */
  lemma {:induction false} PrecipitationItemOutcome(axis: seq<TimeDefine>, item: Item)
    ensures var ps := Flatten(item.kind);
            var r := PrecipitationItem(axis, item);
            && (|ps| != 1 ==> r == Fail(Error(InvalidPropertyCount)))
            && (|ps| == 1 && ps[0].probabilityOfPrecipitationPart.None? ==> r == Fail(Error(MissingSubPart)))
            && (r.Ok? <==> |ps| == 1 && ps[0].probabilityOfPrecipitationPart.Some?)
            && (r.Ok? ==>
                  && r.value.area == item.area
                  && |r.value.forecast| == Min(|axis|, |ps[0].probabilityOfPrecipitationPart.value.values|)
                  && forall k :: 0 <= k < |r.value.forecast| ==> r.value.forecast[k].time == axis[k])
  {
  }

  /** Alignment by sorted position: when the precipitation values carry
      exactly the time ids of the block, there is one record per time and
      record k's value has the k-th time's id. */
  lemma {:induction false} PrecipitationItemAlignment(times: seq<TimeDefine>, item: Item)
    requires PrecipitationItem(SortByKey(times, TimeKey), item).Ok?
    requires var ps := Flatten(item.kind);
             forall i :: 0 <= i < |ps| && ps[i].probabilityOfPrecipitationPart.Some? ==>
               Covers(ps[i].probabilityOfPrecipitationPart.value.values, PrecipitationKey, times)
    ensures var axis := SortByKey(times, TimeKey);
            var f := PrecipitationItem(axis, item).value.forecast;
            && |f| == |times|
            && forall k :: 0 <= k < |f| ==> f[k].time == axis[k] && f[k].probability.refId == axis[k].timeId
  {
    var axis := SortByKey(times, TimeKey);
    PrecipitationItemOk(axis, item);
    var values := Flatten(item.kind)[0].probabilityOfPrecipitationPart.value.values;
    Paired(values, PrecipitationKey, times);
    PrecipitationRecordsAligned(axis, SortByKey(values, PrecipitationKey));
  }

  lemma {:induction false} PrecipitationItemOk(axis: seq<TimeDefine>, item: Item)
    requires PrecipitationItem(axis, item).Ok?
    ensures var ps := Flatten(item.kind);
            && |ps| == 1 && ps[0].probabilityOfPrecipitationPart.Some?
            && PrecipitationItem(axis, item).value.forecast ==
                 PrecipitationRecords(axis, SortByKey(ps[0].probabilityOfPrecipitationPart.value.values, PrecipitationKey))
  {
  }

  lemma {:induction false} PrecipitationRecordsAligned(axis: seq<TimeDefine>, values: seq<ProbabilityOfPrecipitation>)
    requires |values| == |axis|
    requires forall k :: 0 <= k < |axis| ==> PrecipitationKey(values[k]) == NatKey(axis[k].timeId)
    ensures var f := PrecipitationRecords(axis, values);
            && |f| == |axis|
            && forall k :: 0 <= k < |f| ==> f[k].time == axis[k] && f[k].probability.refId == axis[k].timeId
  {
    forall k | 0 <= k < |axis| ensures values[k].refId == axis[k].timeId {
      NatKeyInjective(values[k].refId, axis[k].timeId);
    }
  }

  // ---- The ３時間毎気温 strategy ----

  /** Exactly one property, which must hold a temperature part (its tag is
      not looked at); the records are at the times of the axis. */
  lemma {:induction false} TemperatureSeriesItemOutcome(axis: seq<TimeDefine>, item: Item)
    ensures var ps := Flatten(item.kind);
            var r := TemperatureSeriesItem(axis, item);
            && (|ps| != 1 ==> r == Fail(Error(InvalidPropertyCount)))
            && (|ps| == 1 && ps[0].temperaturePart.None? ==> r == Fail(Error(MissingSubPart)))
            && (r.Ok? <==> |ps| == 1 && ps[0].temperaturePart.Some?)
            && (r.Ok? ==>
                  && r.value.area == item.area
                  && |r.value.forecast| == Min(|axis|, |ps[0].temperaturePart.value.values|)
                  && forall k :: 0 <= k < |r.value.forecast| ==> r.value.forecast[k].time == axis[k])
  {
  }

  /** Alignment by sorted position for the 3-hourly temperatures. */
  lemma {:induction false} TemperatureSeriesItemAlignment(times: seq<TimeDefine>, item: Item)
    requires TemperatureSeriesItem(SortByKey(times, TimeKey), item).Ok?
    requires var ps := Flatten(item.kind);
             forall i :: 0 <= i < |ps| && ps[i].temperaturePart.Some? ==>
               Covers(ps[i].temperaturePart.value.values, TemperatureKey, times)
    ensures var axis := SortByKey(times, TimeKey);
            var f := TemperatureSeriesItem(axis, item).value.forecast;
            && |f| == |times|
            && forall k :: 0 <= k < |f| ==> f[k].time == axis[k] && f[k].temperature.refId == axis[k].timeId
  {
    var axis := SortByKey(times, TimeKey);
    TemperatureSeriesItemOk(axis, item);
    var values := Flatten(item.kind)[0].temperaturePart.value.values;
    Paired(values, TemperatureKey, times);
    TemperatureSeriesRecordsAligned(axis, SortByKey(values, TemperatureKey));
  }

  lemma {:induction false} TemperatureSeriesItemOk(axis: seq<TimeDefine>, item: Item)
    requires TemperatureSeriesItem(axis, item).Ok?
    ensures var ps := Flatten(item.kind);
            && |ps| == 1 && ps[0].temperaturePart.Some?
            && TemperatureSeriesItem(axis, item).value.forecast ==
                 TemperatureSeriesRecords(axis, SortByKey(ps[0].temperaturePart.value.values, TemperatureKey))
  {
  }

  lemma {:induction false} TemperatureSeriesRecordsAligned(axis: seq<TimeDefine>, values: seq<Temperature>)
    requires |values| == |axis|
    requires forall k :: 0 <= k < |axis| ==> TemperatureKey(values[k]) == NatKey(axis[k].timeId)
    ensures var f := TemperatureSeriesRecords(axis, values);
            && |f| == |axis|
            && forall k :: 0 <= k < |f| ==> f[k].time == axis[k] && f[k].temperature.refId == axis[k].timeId
  {
    forall k | 0 <= k < |axis| ensures values[k].refId == axis[k].timeId {
      NatKeyInjective(values[k].refId, axis[k].timeId);
    }
  }

  // ---- The default station strategy (temperature forecast) ----

  /** Any number of properties; the item converts exactly when each holds a
      non-empty temperature part, and then record k pairs the k-th time with
      the k-th property in document order, its tag and its first
      temperature. */
  lemma {:induction false} TemperatureForecastItemOutcome(axis: seq<TimeDefine>, item: Item)
    ensures var ps := Flatten(item.kind);
            var r := TemperatureForecastItem(axis, item);
            && (r.Ok? <==> forall i :: 0 <= i < |ps| ==> HasTemperature(ps[i]))
            && (r.Fail? ==> r == Fail(Error(MissingSubPart)))
            && (r.Ok? ==>
                  && r.value.area == item.area
                  && |r.value.forecast| == Min(|axis|, |ps|)
                  && forall k :: 0 <= k < |r.value.forecast| ==>
                       && r.value.forecast[k].time == axis[k]
                       && r.value.forecast[k].typeName == ps[k].typeName
                       && r.value.forecast[k].temperature == ps[k].temperaturePart.value.values[0])
  {
  }
}
