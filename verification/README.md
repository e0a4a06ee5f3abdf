# Prefecture weather forecast (府県天気予報 R1) conversion, in Dafny

This project models the core of a parser for the Japan Meteorological
Agency's prefecture weather forecast bulletin (府県天気予報 R1). It covers
two parts, and proves properties of both.

- **The conversion of a deserialised bulletin into a `Report`.** This is
  `Report::from_tmp` and `MeteorologicalInfoListItem::from_tmp`.
  - The bulletin body is a list of blocks. Each block has a category tag:
    区域予報 (area forecast), 地点予報 (station forecast) or 独自予報
    (proprietary).
  - A proprietary block passes through unchanged.
  - Every other block holds TimeSeriesInfos. Each TimeSeriesInfo has:
    - a time axis, which is sorted by `time_id`;
    - items, one per area or station.
  - A TimeSeriesInfo is routed by the tag of its first item's first
    property, to one of five strategies:
    - 天気/波/風 weather forecasts;
    - 降水確率 precipitation probability;
    - the 3-hour 卓越天気/代表風 series;
    - the 3-hourly temperature series;
    - the multi-day temperature forecast.
  - Every strategy flattens an item's properties, kind by kind. What
    follows differs:
    - The 天気/波/風 and 3-hour 卓越天気/代表風 strategies check the property
      count, sort the properties by tag, bind them to roles by position and
      assert their tags. They then sort each role's values by `ref_id` and
      zip them with the time axis.
    - The 降水確率 and 3-hourly temperature strategies require exactly one
      property holding their part. They sort its values by `ref_id` and zip
      them with the time axis. They neither sort by tag nor assert a tag.
    - The multi-day temperature forecast checks no count and sorts nothing.
      It requires every property to have a non-empty temperature part. It
      zips the time axis with the properties in document order, taking each
      property's tag and first temperature.
- **The title filter of the Atom feed**, `Feed::into_titled_entries`. It
  keeps an entry when the membership of its title among the filters differs
  from the blacklist flag. It groups the kept entries by title.

## Module structure

- `Base`: shared types and fold helpers.
  - Outcomes: `Ok`, or `Fail` carrying either a returned `anyhow` error or
    a panic.
  - The two folds the source's loops perform, each with a lemma about it:
    `Traverse` (push with `?`) and `Gather` (extend with `?`).
- `Sorting`: the orders behind every `sort_by_key`, and a stable sort with
  its properties.
- `Zipping`: the `zip` iterator adaptor.
- `FukenTypes`: the bulletin's data.
- `FukenR1`: the conversion, as two layers:
  - specification functions, one per branch of the source;
  - methods with the source's loops, each proved equal to its function.
- `FukenItems`: what each per-item strategy does on each input.
- `FukenAssembly`: classification, block assembly and report assembly.
- `Feed`: the feed entries, the selection method, and its properties.

## Behaviour of the source worth knowing

- **Records are built by `zip`.** An area gets as many records as the
  shortest of the time axis and its role lists. That is one record per time
  only when every role list carries exactly the axis's time ids.
  - The `...ItemAlignment` lemmas prove it under that condition.
  - The `...ItemArity` and `...ItemOutcome` lemmas prove the unconditional
    bound of at most one record per time.
- **A three-property weather item is never an arity error.** With tags
  {天気, 天気, 風}, say, the count check passes. The positional pattern is
  then either unmet, which gives `MissingSubPart`, or met, after which a tag
  assertion panics (`WeatherItemTagCheck`).
- **An unrecognised first-property tag in an area block is skipped per
  TimeSeriesInfo.** It is not skipped per block: the block's other
  TimeSeriesInfos still contribute (`SeriesClassification`,
  `BlockAssembly`).
- **A block with an unknown category and no TimeSeriesInfo yields
  nothing.** It is not an error, because the error is raised inside the
  loop (`UnknownBlockTag`).
- **The multi-day temperature forecast accepts any number of
  properties.** The only requirement is that each has a non-empty
  temperature part.
- **Tag-assertion failures are panics, not returned errors.** The same
  holds for indexing an item list with no first property. Both are kept
  apart from the returned errors.

## Model

| member | source | states |
|---|---|---|
| Base.TraverseSpec | src/fuken_r1.rs:199-229 | A `for` loop that pushes each converted element with `?` succeeds exactly when every conversion does. On success it holds one result per element, in order. Otherwise it fails with the first failure. |
| Base.GatherSpec | src/fuken_r1.rs:25-31 | A loop that extends with each converted element's values using `?` succeeds exactly when every conversion does. On success its value is the concatenation, in order. Otherwise the first failure is the result. |
| Base.Traverse | src/fuken_r1.rs:199-229 | The `for` loop that pushes each converted element with `?`. Its behaviour is stated by `TraverseSpec`. |
| Base.Gather | src/fuken_r1.rs:25-31 | The `for` loop that extends with each converted element's values using `?`. Its behaviour is stated by `GatherSpec`. |
| Sorting.SortByKey | src/fuken_r1.rs:86 | The result of `sort_by_key` is sorted by the key. It is a permutation of the input: same length, same multiset, same multiset of keys. |
| Sorting.SortByKeyStable | src/fuken_r1.rs:100 | `sort_by_key` is stable: the elements with any given key keep their input order. |
| Sorting.KeyLeTransitive | src/fuken_r1.rs:86 | The key order is transitive. Together with `KeyLeTotal` and `KeyLeAntisymmetric`, it is a total order on keys. |
| Sorting.KeyLeTotal | src/fuken_r1.rs:86 | Any two keys are comparable. |
| Sorting.KeyLeAntisymmetric | src/fuken_r1.rs:86 | Keys that are each at most the other are equal. |
| Sorting.StringKeyInjective | src/fuken_r1.rs:100 | Distinct tags have distinct sort keys, so sorting by tag orders by the tag itself. |
| Sorting.SortedPairing | src/fuken_r1.rs:133-138 | Take two lists whose keys agree as multisets and sort both. Then the k-th elements carry equal keys, which is what makes sort-then-zip pair values with times. |
| Sorting.AscendingUnique | src/fuken_r1.rs:133-137 | Two ascending key lists with the same keys are equal. |
| Zipping.Zip | src/fuken_r1.rs:138 | `zip` yields min(len a, len b) pairs. The k-th pair is (a[k], b[k]). |
| FukenR1.TimeAxis | src/fuken_r1.rs:86 | The block's TimeDefines sorted by `time_id`. `AxisAscending` states that it is a permutation of them in ascending `time_id` order. |
| FukenR1.Flatten | src/fuken_r1.rs:93-96 | An item's properties, kind by kind, in document order. Every strategy's lemmas are stated over it. |
| FukenR1.WeatherForecasts | src/fuken_r1.rs:133-140 | The records of one 天気/波/風 area: each role list sorted by `ref_id` and zipped with the axis. `WeatherForecastsShape` and `WeatherForecastsAligned` state its properties. |
| FukenR1.WeatherAndWindForecasts | src/fuken_r1.rs:263-279 | The records of one 3-hour area: the wind and weather lists sorted by `ref_id` and zipped with the axis. `WeatherAndWindForecastsShape` and `WeatherAndWindForecastsAligned` state its properties. |
| FukenR1.WeatherItem | src/fuken_r1.rs:97-193 | The 天気/波/風 strategy for one item. `WeatherItemArity`, `WeatherItemUnmatched`, `WeatherItemTagAsserts`, `WeatherItemMissingDetail`, `WeatherItemTagCheck`, `WeatherItemParts`, `WeatherItemOk` and `WeatherItemAlignment` state its behaviour. |
| FukenR1.PrecipitationItem | src/fuken_r1.rs:200-228 | The 降水確率 strategy for one item. `PrecipitationItemOutcome`, `PrecipitationItemOk` and `PrecipitationItemAlignment` state its behaviour. |
| FukenR1.WeatherAndWindItem | src/fuken_r1.rs:236-285 | The 3-hour 卓越天気/代表風 strategy for one item. `WeatherAndWindItemArity`, `WeatherAndWindItemUnmatched`, `WeatherAndWindItemTagAsserts`, `WeatherAndWindItemTagCheck`, `WeatherAndWindItemParts`, `WeatherAndWindItemOk` and `WeatherAndWindItemAlignment` state its behaviour. |
| FukenR1.TemperatureSeriesItem | src/fuken_r1.rs:297-322 | The ３時間毎気温 strategy for one item. `TemperatureSeriesItemOutcome`, `TemperatureSeriesItemOk` and `TemperatureSeriesItemAlignment` state its behaviour. |
| FukenR1.TemperatureForecastItem | src/fuken_r1.rs:328-357 | The multi-day temperature strategy for one item. `TemperatureForecastItemOutcome` states its behaviour. |
| FukenR1.FirstPropertyType | src/fuken_r1.rs:89 | `items[0].kind[0].property[0]._type`, or the indexing panic. `SeriesClassification` states that the panic is the outcome whenever there is no first property. |
| FukenR1.ConvertTimeSeries | src/fuken_r1.rs:78-368 | The routing of one TimeSeriesInfo under a block category. `SeriesClassification`, `UnknownBlockTag` and the `...Routed` lemmas state its behaviour. |
| FukenR1.SeriesItems | src/fuken_r1.rs:87-368 | What one TimeSeriesInfo appends to the block's result: nothing or one variant. `GatherSeries` states its behaviour. |
| FukenR1.ConvertBlock | src/fuken_r1.rs:66-371 | `MeteorologicalInfoListItem::from_tmp` for one block. `ProprietaryPassThrough`, `UnknownBlockTag` and `BlockAssembly` state its behaviour. |
| FukenR1.ConvertReport | src/fuken_r1.rs:17-37 | `Report::from_tmp`. `ReportAssembly` states its behaviour. |
| FukenR1.AssertEq | src/fuken_r1.rs:130 | `assert_eq!` passes exactly when both sides are equal. Otherwise it panics with an assertion failure that carries both sides. |
| FukenR1.WeatherRecords | src/fuken_r1.rs:138-140 | The weather records number the shortest of the axis and the role lists. Record k holds the k-th time, text, weather, code and wind. It holds the k-th wave height exactly when wave heights are given. |
| FukenR1.PrecipitationRecords | src/fuken_r1.rs:215-222 | Record k pairs the k-th time with the k-th probability. The record count is the shorter length. |
| FukenR1.WeatherAndWindRecords | src/fuken_r1.rs:266-279 | Record k holds the k-th time, direction, speed and weather. The record count is the shortest length. |
| FukenR1.TemperatureSeriesRecords | src/fuken_r1.rs:311-318 | Record k pairs the k-th time with the k-th temperature. The record count is the shorter length. |
| FukenR1.TemperatureForecastRecords | src/fuken_r1.rs:339-356 | Record k pairs the k-th time with the k-th property in document order. It takes that property's tag and the first of its temperatures. |
| FukenR1.CollectAreas | src/fuken_r1.rs:297-323 | The loop over items returns exactly the ordered traversal of the items. |
| FukenR1.TimeSeriesFromTmp | src/fuken_r1.rs:78-368 | The body of the loop over TimeSeriesInfos matches the classification and conversion function on every input, including the panic, the skip and the unknown-tag error. |
| FukenR1.ListItemsFromTmp | src/fuken_r1.rs:66-371 | `MeteorologicalInfoListItem::from_tmp` returns exactly the block conversion. |
| FukenR1.ReportFromTmp | src/fuken_r1.rs:17-37 | `Report::from_tmp` returns exactly the report conversion. |
| FukenItems.TagOrder | src/fuken_r1.rs:100 | The tag orders the source's patterns rely on hold: 天気 < 波 < 風, and ３時間内代表風 < ３時間内卓越天気. |
| FukenItems.SortedTags | src/fuken_r1.rs:99-128 | Properties whose tags are, in some order, an ascending tag list get exactly that list, position by position, once sorted by tag. |
| FukenItems.Paired | src/fuken_r1.rs:133-138 | Take a role list whose ref ids are the axis's time ids. Sorted, it has one value per time, and value k carries the id of the k-th time of the sorted axis. |
| FukenItems.AxisAscending | src/fuken_r1.rs:86 | The time axis holds the block's TimeDefines, with `time_id` ascending. |
| FukenItems.WeatherItemArity | src/fuken_r1.rs:97-193 | A weather item with a property count other than 2 or 3 is an `invalid count` error. A converted item keeps its area and has at most one record per time, record k at time k. Wave heights are present exactly when there are three properties. |
| FukenItems.WeatherItemUnmatched | src/fuken_r1.rs:142-146 | Sorted properties that miss the positional pattern are a missing sub-part error. |
| FukenItems.WeatherItemTagAsserts | src/fuken_r1.rs:130-132 | Once the pattern matches, the item converts exactly when the sorted tags are 天気, (波,) 風. Otherwise a tag assertion panics. |
| FukenItems.WeatherItemMatched | src/fuken_r1.rs:129-141 | An unfolding step toward `WeatherItemOk`, not a property of its own. A matched, correctly tagged item holds the records built from its 天気, 波 and 風 properties, each role sorted by ref id. |
| FukenItems.WeatherForecastsShape | src/fuken_r1.rs:138-140 | There are no more records than times. Record k is at axis time k. The wave height is present exactly when a 波 property is. |
| FukenItems.WeatherItemMissingDetail | src/fuken_r1.rs:101-127 | A 2- or 3-property item with a property lacking its detail forecast is a missing sub-part error. |
| FukenItems.WeatherItemTagCheck | src/fuken_r1.rs:98-147 | Take an item whose properties all hold every sub-part. It converts exactly when its tags are 天気 and 風, plus 波 for three, in any order. Otherwise it is a tag-assertion panic. |
| FukenItems.WeatherItemParts | src/fuken_r1.rs:101-146 | Take an item with the right tags. It converts exactly when every property has what its role needs. Otherwise it is a missing sub-part error, never a panic. |
| FukenItems.WeatherRolesSorted | src/fuken_r1.rs:101-128 | With the expected sorted tags, every property being complete for its role is equivalent to the sorted list matching the pattern. |
| FukenItems.WeatherItemOk | src/fuken_r1.rs:98-190 | A converted weather item has 2 or 3 properties, sorted into the pattern with the expected tags. Its records come from the 天気, 波 and 風 properties. |
| FukenItems.WeatherRecordsAligned | src/fuken_r1.rs:138-140 | Role lists lined up with the axis give one record per time. Every value in record k carries the k-th time's id. |
| FukenItems.WeatherForecastsAligned | src/fuken_r1.rs:133-140 | Take role lists whose ref ids are the block's time ids. After sort-then-zip they give one record per time, each value carrying its time's id. |
| FukenItems.WeatherItemAlignment | src/fuken_r1.rs:133-184 | Take a converted weather item whose role lists carry exactly the block's time ids. It has one record per time. Record k is at the k-th time of the ascending axis, and all its values have that time's id. |
| FukenItems.WeatherAndWindItemArity | src/fuken_r1.rs:237-242 | A 3-hour item with a count other than 2 is an `invalid count` error. A converted item keeps its area and has at most one record per time, record k at time k. |
| FukenItems.WeatherAndWindItemUnmatched | src/fuken_r1.rs:281-285 | Sorted properties that miss the positional pattern are a missing sub-part error. |
| FukenItems.WeatherAndWindItemTagAsserts | src/fuken_r1.rs:261-262 | Once the pattern matches, the item converts exactly when the sorted tags are ３時間内代表風, ３時間内卓越天気. Otherwise a tag assertion panics. |
| FukenItems.WeatherAndWindItemOk | src/fuken_r1.rs:243-280 | A converted item has two properties in the pattern with the expected tags. Its records come from the wind and weather properties. |
| FukenItems.WeatherAndWindForecastsShape | src/fuken_r1.rs:266-279 | There are no more records than times, and record k is at axis time k. |
| FukenItems.WeatherAndWindItemTagCheck | src/fuken_r1.rs:243-262 | Take an item with every sub-part on both properties. It converts exactly when its tags are ３時間内代表風 and ３時間内卓越天気, in any order. Otherwise a tag assertion panics. |
| FukenItems.WeatherAndWindItemParts | src/fuken_r1.rs:244-285 | Take an item with the right tags. It converts exactly when each property has what its role needs. Otherwise it is a missing sub-part error. |
| FukenItems.WindWeatherRolesSorted | src/fuken_r1.rs:243-259 | With the expected sorted tags, role completeness is equivalent to matching the pattern. |
| FukenItems.WeatherAndWindRecordsAligned | src/fuken_r1.rs:266-279 | Lists lined up with the axis give one record per time, each value carrying its time's id. |
| FukenItems.WeatherAndWindForecastsAligned | src/fuken_r1.rs:263-279 | Take wind and weather lists whose ref ids are the block's time ids. After sort-then-zip they give one record per time, each value carrying its time's id. |
| FukenItems.WeatherAndWindItemAlignment | src/fuken_r1.rs:263-280 | Alignment by sorted position for a converted 3-hour item: one record per time, and record k's values carry the k-th time's id. |
| FukenItems.PrecipitationItemOutcome | src/fuken_r1.rs:200-228 | A count other than 1 is an `invalid count` error. A property without a precipitation part is a missing sub-part error. Otherwise the item converts, keeping its area, with records at the axis times. |
| FukenItems.PrecipitationItemOk | src/fuken_r1.rs:201-223 | A converted item has one property with a precipitation part. Its records pair the axis with those values, sorted by ref id. |
| FukenItems.PrecipitationRecordsAligned | src/fuken_r1.rs:215-222 | Values lined up with the axis give one record per time, record k's value carrying time k's id. |
| FukenItems.PrecipitationItemAlignment | src/fuken_r1.rs:214-223 | Take precipitation values that carry exactly the block's time ids. There is one record per time, and record k's value has the k-th time's id. |
| FukenItems.TemperatureSeriesItemOutcome | src/fuken_r1.rs:297-322 | A count other than 1 is an `invalid count` error. A property without a temperature part is a missing sub-part error. Otherwise the item converts, keeping its area. |
| FukenItems.TemperatureSeriesItemOk | src/fuken_r1.rs:298-319 | A converted item has one property with a temperature part. Its records pair the axis with those values, sorted by ref id. |
| FukenItems.TemperatureSeriesRecordsAligned | src/fuken_r1.rs:311-318 | Values lined up with the axis give one record per time, each carrying its time's id. |
| FukenItems.TemperatureSeriesItemAlignment | src/fuken_r1.rs:310-319 | Take temperatures that carry exactly the block's time ids. There is one record per time, and record k's value has the k-th time's id. |
| FukenItems.TemperatureForecastItemOutcome | src/fuken_r1.rs:328-357 | The item converts exactly when every property has a non-empty temperature part. Otherwise it is a missing sub-part error. Record k pairs time k with property k in document order, its tag and its first temperature. |
| FukenAssembly.StrategyTraverse | src/fuken_r1.rs:297-323 | Converting the items with one strategy succeeds exactly when every item converts. On success it keeps one AreaForecast per item, with that item's area. Otherwise it fails with the first failing item's failure. |
| FukenAssembly.RoutedBy | src/fuken_r1.rs:296-324 | Whichever strategy a TimeSeriesInfo is routed to, wrapping the converted items in that strategy's variant yields the variant exactly when every item converts. The variant holds one AreaForecast per item, in item order, each with its item's area. Otherwise the result is the first failing item's failure. |
| FukenAssembly.WeatherConversion | src/fuken_r1.rs:92-141 | The weather conversion keeps each item's area. |
| FukenAssembly.PrecipitationConversion | src/fuken_r1.rs:200-223 | The precipitation conversion keeps each item's area. |
| FukenAssembly.WeatherAndWindConversion | src/fuken_r1.rs:236-280 | The 3-hour conversion keeps each item's area. |
| FukenAssembly.TemperatureSeriesConversion | src/fuken_r1.rs:297-319 | The 3-hourly temperature conversion keeps each item's area. |
| FukenAssembly.TemperatureForecastConversion | src/fuken_r1.rs:328-357 | The temperature forecast conversion keeps each item's area. |
| FukenAssembly.WeatherDispatch | src/fuken_r1.rs:88-196 | An unfolding step toward `SeriesClassification`, not a property of its own. An area block whose first tag is 天気, 波 or 風 yields a WeatherForecast of the converted items. |
| FukenAssembly.PrecipitationDispatch | src/fuken_r1.rs:198-232 | An unfolding step toward `SeriesClassification`, not a property of its own. An area block whose first tag is 降水確率 yields a ProbabilityOfPrecipitation of the converted items. |
| FukenAssembly.WeatherAndWindDispatch | src/fuken_r1.rs:234-289 | An unfolding step toward `SeriesClassification`, not a property of its own. An area block whose first tag is ３時間内卓越天気 or ３時間内代表風 yields a WeatherAndWindTimeSeries. |
| FukenAssembly.TemperatureSeriesDispatch | src/fuken_r1.rs:294-325 | An unfolding step toward `SeriesClassification`, not a property of its own. A station block whose first tag is ３時間毎気温 yields a TemperatureTimeSeries. |
| FukenAssembly.TemperatureForecastDispatch | src/fuken_r1.rs:326-360 | An unfolding step toward `SeriesClassification`, not a property of its own. A station block with any other first tag yields a TemperatureForecast. |
| FukenAssembly.WeatherRouted | src/fuken_r1.rs:91-196 | The weather branch yields a WeatherForecast with one AreaForecast per item, in order, exactly when all items convert. Otherwise it yields the first failure. |
| FukenAssembly.PrecipitationRouted | src/fuken_r1.rs:199-232 | The same for the precipitation branch. |
| FukenAssembly.WeatherAndWindRouted | src/fuken_r1.rs:235-289 | The same for the 3-hour branch. |
| FukenAssembly.TemperatureSeriesRouted | src/fuken_r1.rs:296-324 | The same for the 3-hourly temperature branch. |
| FukenAssembly.TemperatureForecastRouted | src/fuken_r1.rs:327-359 | The same for the temperature forecast branch. |
| FukenAssembly.SeriesClassification | src/fuken_r1.rs:87-368 | A TimeSeriesInfo with no first property panics on the index. If the tag table has no strategy, it yields nothing. Otherwise it yields one variant of the routed strategy, holding one AreaForecast per item, exactly when every item converts, and otherwise the first failure. |
| FukenAssembly.ProprietaryPassThrough | src/fuken_r1.rs:72-76 | A 独自予報 block yields exactly one Proprietary item with its records untouched, whatever its TimeSeriesInfos hold. |
| FukenAssembly.UnknownBlockTag | src/fuken_r1.rs:362-367 | A block with any other unknown category fails with `unknown TimeSeriesInfo::_type` as soon as it has a TimeSeriesInfo. With none, it yields nothing. |
| FukenAssembly.GatherSeries | src/fuken_r1.rs:77-370 | A block's TimeSeriesInfos convert exactly when each does. Their joint value is the variants they contribute, in order, at most one each. |
| FukenAssembly.BlockAssembly | src/fuken_r1.rs:77-370 | A non-proprietary block converts exactly when every TimeSeriesInfo does. It then holds their contributions in order, no more than one per TimeSeriesInfo. Otherwise it fails with the first failure. |
| FukenAssembly.ReportAssembly | src/fuken_r1.rs:17-37 | The report converts exactly when every block does. It then keeps control and head, and its body is the blocks' items concatenated in document order. Otherwise the first failing block's failure is the result, with no partial report. |
| Feed.FilterSet | src/feed.rs:61 | The filter strings collected into a set. `DuplicateFilters` states that repeats do not matter. |
| Feed.Kept | src/feed.rs:64 | Whether an entry is kept: its title's membership XOR the blacklist flag. `KeptIffXor` states it of the result. |
| Feed.TitledEntries | src/feed.rs:60-69 | The grouping the selection produces. `IntoTitledEntries` proves the loop equal to it, and `GroupsNonEmpty`, `GroupCounts`, `GroupOrder` and `SizesSumToKept` state its properties. |
| Feed.IntoTitledEntries | src/feed.rs:60-69 | The loop over the entries returns exactly the title grouping of the kept entries, for the filter list taken as a set. |
| Feed.TitledEntriesSnoc | src/feed.rs:64-66 | Each further entry changes only its own title's group, appending itself, and only when it is kept. |
| Feed.KeptIffXor | src/feed.rs:64 | An entry's title is a key exactly when (title in filters) XOR blacklist holds. Every key is such a title. |
| Feed.TitleGroupMembers | src/feed.rs:65 | A group holds exactly the input entries with its title. |
| Feed.TitleGroupCount | src/feed.rs:63-67 | A group holds each entry with its title exactly as often as the input does, and no other entry. |
| Feed.TitleGroupOrder | src/feed.rs:63-65 | A group is the input's subsequence at exactly the positions of the entries with its title, in increasing order. |
| Feed.GroupsNonEmpty | src/feed.rs:65 | Every group is non-empty. It holds only kept input entries whose title is its key, so a dropped entry appears in no group. |
| Feed.GroupCounts | src/feed.rs:63-67 | In the result, each group holds every entry with its title exactly as often as the input does. |
| Feed.GroupOrder | src/feed.rs:63-65 | In the result, each group keeps the input order of its entries, and holds all of them. |
| Feed.SizesSumToKept | src/feed.rs:63-67 | Over any enumeration of the keys without repeats, the group sizes add up to the number of kept entries. |
| Feed.EmptyWhitelist | src/feed.rs:61-64 | Whitelist mode with no filters yields an empty map. |
| Feed.EmptyBlacklist | src/feed.rs:61-64 | Blacklist mode with no filters keeps every entry, each in its title's group as often as it occurs. |
| Feed.DuplicateFilters | src/feed.rs:61 | Repeating a filter string does not change the result. |

## Left out

- XML deserialisation is not modelled: `FromStr for Report` and the serde attributes on every type. The model starts from the deserialised tree. The same goes for the deserialisation of the feed.
- `chrono` timestamps are opaque text. They are carried and never inspected.
- The test reading `regular_l.xml` in `src/feed.rs` is not modelled, because it is file I/O and printing.
- `sort_by_key`, which sorts in place, is modelled as a pure stable sort on values. This covers the mutable destructured vectors and `time_defines`. Only the sorted value is observable by the code that follows.
- `HashMap` and `HashSet` are Dafny `map` and `set`. Hashing, capacity and iteration order are not modelled. The source never iterates the result.
- The `anyhow` messages are the constructors of `ErrorKind`, not strings. Formatting with `format!` is not modelled.
- Panics are a `Fail(Panic(...))` value, not unwinding. The model still distinguishes them from returned errors.
- `usize`, `u32` and `i32` fields are unbounded `nat` and `int`. The conversion does no arithmetic on them, so widths never matter.
- The `try_into().unwrap()` of the three-property branch is not modelled as a panic, because the count was checked just before, so it cannot panic.
