# ham-radio-conditions, modelled in Dafny

This project models the decision and bookkeeping core of ham-radio-conditions, a dashboard that
reports HF radio propagation conditions for amateur radio operators. The core sits between the
network fetchers and the web layer:

- **Namespaced TTL cache** (`CacheManagement`, a `CacheManager` class). Entries carry their
  creation time, last access, access count and size. `get` expires entries lazily. `set` evicts
  least-recently-used entries for the count and memory limits. There are `delete` and `clear`, and the sweeps
  `cleanup_expired` and `cleanup_oversized`. Each namespace is an insertion-ordered sequence of entries,
  because dictionary order decides ties in the eviction order.
- **Propagation heuristics** (`MufCalculator`, `BandOptimizer`, `PropagationCalculator`, `Helpers`,
  `Constants`, `TimeAnalyzer`). These cover:
  - the ionosonde station filter and the nearest-station choice;
  - the foF2/MUF adjustments and seasonal factors;
  - the SFI-to-MUF table;
  - band quality labels, time-of-day boosts and the storm filter;
  - day-period classification;
  - the confidence clamps.
- **Validation scoring** (`AccuracyTracker`, `HistoricalValidator`, `CrossValidator`,
  `PredictionValidator`, `RealTimeValidator`, `IonosondeValidator`). These cover:
  - accuracy metrics over a bounded history;
  - least-squares trend classification;
  - Jaccard and consistency scores;
  - weighted validation scores;
  - agreement and confidence levels;
  - the ionosonde formula comparison.
- **Post-processing of fetched data** (`SpotsData`, `ContestData`, `ActivationsData`). These cover:
  - band bucketing and merging of DX spots;
  - contest mode and status classification, including the 2400Z end time;
  - POTA/SOTA activator spot normalisation and merging.
- **Alert rules** (`Alerts`). **Maidenhead locators and ZIP code estimation** (`Geocoding`). The
  locator part proves the round trip from a six-character grid through its centre point and back.
- **Orchestrator helpers** (`HamRadioConditions`, with a `Conditions` class). These cover:
  - solar-cycle phase and trend;
  - NaN/Infinity scrubbing before JSON output, which RFC 8259 section 6 requires;
  - the update-check throttle;
  - the cache-gated report.

Shared modules:

- `Common`: `Option`, real-valued statistics, the least-squares slope and Jaccard similarity.
- `Sorting`: a stable insertion sort by a strict weak order, used for Python's stable `sort`.
- `Text`: the Python string operations the core relies on. These are `strip`, `upper`, `lower`,
  `replace` and the `float` parse used by the source, plus the lexicographic string order.

Floating-point numbers are exact `real`s. Clock reads are `now`, hour and month parameters. The
results of network requests are inputs, namely already-parsed records.

## Model

| member | source | states |
|---|---|---|
| CacheManagement.Find | utils/cache_manager.py:111-114 | the dictionary lookup: a found position holds the key, a miss means no entry holds it |
| CacheManagement.RemoveKeys | utils/cache_manager.py:186-190 | deleting a list of keys keeps only entries of the namespace whose key is not in the list |
| CacheManagement.HitRate | utils/cache_manager.py:286-293 | the hit rate is never negative and is 0 for an empty namespace |
| CacheManagement.HitRateBound | utils/cache_manager.py:286-293 | the hit rate never exceeds the largest access count of any entry |
| CacheManagement.MemoryVictims | utils/cache_manager.py:231-245 | the memory eviction loop deletes at most as many entries as the namespace holds |
| CacheManagement.VictimsFree | utils/cache_manager.py:231-245 | unless it deletes every entry, the memory eviction loop frees at least the requested bytes |
| CacheManagement.FindUnique | utils/cache_manager.py:104-124 | with distinct keys, looking up an entry's key finds that very entry |
| CacheManagement.DropVictimsKeys | utils/cache_manager.py:231-245 | the memory walk deletes exactly the leading entries of the least-recently-used order it needs |
| CacheManagement.RemovePrefixKeys | utils/cache_manager.py:215-229 | deleting the keys of a prefix of the order leaves exactly the rest of it |
| CacheManagement.MemoryConcat | utils/cache_manager.py:246-250 | the memory use of a namespace is the sum over its parts |
| CacheManagement.SortRemoveKeys | utils/cache_manager.py:215-229 | sorting by last access changes neither how many entries nor how many bytes survive a deletion |
| CacheManagement.SortDistinct | utils/cache_manager.py:222-224 | sorting by last access keeps keys distinct |
| CacheManagement.LruStrictWeakOrder | utils/cache_manager.py:222-224 | "used earlier" is a strict weak order, so the stable sort is defined |
| CacheManagement.EvictLruCount | utils/cache_manager.py:215-229 | `_evict_entries` clears a namespace of at most `count` entries and otherwise removes exactly `count` |
| CacheManagement.EvictLruOldest | utils/cache_manager.py:215-229 | every entry `_evict_entries` removes was last used no later than every entry it keeps |
| CacheManagement.EvictPrefix | utils/cache_manager.py:215-229 | removing the first n of the order leaves n fewer entries and their bytes |
| CacheManagement.SortPreservesMemory | utils/cache_manager.py:222-224 | sorting does not change the memory use |
| CacheManagement.EvictByMemoryFrees | utils/cache_manager.py:231-245 | `_evict_entries_by_memory` empties the namespace or frees at least the requested bytes |
| CacheManagement.PutFinds | utils/cache_manager.py:150-153 | after storing an entry it is found under its key, keys stay distinct, and at most one entry is added |
| CacheManagement.EvictDistinct | utils/cache_manager.py:215-229 | eviction by count keeps keys distinct and never adds entries |
| CacheManagement.EvictByMemoryDistinct | utils/cache_manager.py:231-245 | eviction by memory keeps keys distinct and never adds entries |
| CacheManagement.OversizedDistinct | utils/cache_manager.py:195-213 | `cleanup_oversized` keeps keys distinct |
| CacheManagement.SetThenGet | utils/cache_manager.py:126-154 | after `set(k, v)` at time `now` with age limit `maxAge`, a `get(k)` at any time up to `now + maxAge` returns `v`, even when the set evicted entries first |
| CacheManagement.SetWithinLimit | utils/cache_manager.py:141-153 | a namespace within a count limit of at least 1 before `set` is still within it afterwards |
| CacheManagement.GetHit | utils/cache_manager.py:46-49 | a hit returns the entry's value, adds one to its access count, stamps its last access and changes no other entry |
| CacheManagement.GetExpired | utils/cache_manager.py:116-120 | a `get` of an expired entry misses and deletes exactly that entry |
| CacheManagement.DeleteRemoves | utils/cache_manager.py:155-166 | after a delete the key is absent; deleting an absent key changes nothing, a present one shrinks the namespace |
| CacheManagement.ExpiredKeysRemove | utils/cache_manager.py:179-194 | deleting the collected expired keys leaves exactly the live entries |
| CacheManagement.UnexpiredMeaning | utils/cache_manager.py:179-194 | after `cleanup_expired` no expired entry is left and every live entry is still held, unchanged |
| CacheManagement.TrimToCount | utils/cache_manager.py:195-205 | the count step of `cleanup_oversized` leaves at most `max_size` entries |
| CacheManagement.TrimToMemory | utils/cache_manager.py:206-213 | the memory step of `cleanup_oversized` leaves at most `max_memory_bytes` bytes |
| CacheManagement.OversizedWithinLimits | utils/cache_manager.py:195-213 | after `cleanup_oversized` a namespace is within both its count and its memory limit |
| CacheManagement.DeleteOldest | utils/cache_manager.py:225-229 | the deletion loop of `_evict_entries` removes the keys of the first `count` entries of the order |
| CacheManagement.DeleteUntilFreed | utils/cache_manager.py:238-245 | the loop of `_evict_entries_by_memory` deletes entries in order until enough bytes are freed |
| CacheManagement.EvictEntries | utils/cache_manager.py:215-229 | `_evict_entries` on a namespace computes the least-recently-used eviction |
| CacheManagement.EvictEntriesByMemory | utils/cache_manager.py:231-245 | `_evict_entries_by_memory` on a namespace computes the memory eviction |
| CacheManagement.EnforceSizeLimit | utils/cache_manager.py:198-205 | the count check of `cleanup_oversized` for one namespace |
| CacheManagement.EnforceMemoryLimit | utils/cache_manager.py:206-213 | the memory check of `cleanup_oversized` for one namespace |
| CacheManagement.EnforceLimits | utils/cache_manager.py:195-213 | both checks of `cleanup_oversized`, count first |
| CacheManagement.DeleteKeys | utils/cache_manager.py:186-190 | the deletion loop of `cleanup_expired` removes each listed key in turn |
| CacheManagement.CacheManager.constructor | utils/cache_manager.py:63-74 | a new manager has no namespaces and the given count and memory limits (MB times 1024²) |
| CacheManagement.CacheManager.RegisterCache | utils/cache_manager.py:93-103 | a new namespace starts empty; re-registering keeps the entries and replaces only the configuration |
| CacheManagement.CacheManager.Get | utils/cache_manager.py:104-125 | unknown namespace: None and no change; otherwise the lookup result, with an expired entry deleted or a hit touched |
| CacheManagement.CacheManager.Set | utils/cache_manager.py:126-154 | refused (false, no change) for an unknown namespace; otherwise one eviction when full, one more when the entry would pass the memory limit, then the store |
| CacheManagement.CacheManager.Delete | utils/cache_manager.py:155-166 | true exactly when the namespace holds the key, which is then removed; nothing else changes |
| CacheManagement.CacheManager.Clear | utils/cache_manager.py:167-178 | a name empties only that namespace; no name empties all; configurations are untouched |
| CacheManagement.CacheManager.CleanupExpired | utils/cache_manager.py:179-194 | every namespace loses exactly its expired entries |
| CacheManagement.CacheManager.CleanupOversized | utils/cache_manager.py:195-214 | every namespace is brought within its count limit, then its memory limit |
| CacheManagement.GetCacheManager | utils/cache_manager.py:322-355 | the shared manager starts with limits 100 entries and 50 MB and the four namespaces default, conditions, spots and weather, all empty |
| CacheManagement.AppNamespacesUnregistered | utils/cache_manager.py:322-355 | none of the six namespaces the other modules write is registered by `get_cache_manager` |
| CacheManagement.WriteUnregistered | utils/cache_manager.py:129-131 | as written, a write to "predictions" through the shared manager is refused and the next read misses |
| CacheManagement.CorrectedConfigs | utils/cache_manager.py:322-355 | the corrected registrations include the four defaults and every application namespace |
| CacheManagement.GetCacheManagerCorrected | utils/cache_manager.py:322-355 | the corrected shared manager registers every application namespace as well |
| CacheManagement.WriteRegistered | utils/cache_manager.py:126-154 | with the corrected registrations the write is stored and read back |
| CacheManagement.SweepExpired | utils/cache_manager.py:182-190 | `cleanup_expired` on one namespace leaves exactly its live entries, keys still distinct |
| CacheManagement.SweepOversized | utils/cache_manager.py:198-213 | `cleanup_oversized` on one namespace computes both limit checks, keys still distinct |
| CacheManagement.SweepAllExpired | utils/cache_manager.py:179-194 | the loop over the namespaces replaces each by its live entries |
| CacheManagement.SweepAllOversized | utils/cache_manager.py:195-214 | the loop over the namespaces brings each within its configured or default limits |
| MufCalculator.ToStation | calculations/muf_calculator.py:167-178 | a kept record becomes a station with the record's foF2, MUF(D), confidence score, time text and name |
| MufCalculator.ValidStations | calculations/muf_calculator.py:151-178 | the filter keeps no more stations than the feed has records |
| MufCalculator.ValidStationsExact | calculations/muf_calculator.py:151-165 | a station is kept exactly when its record has foF2 and MUF(D), a score of at least 25 and a readable time no older than two hours |
| MufCalculator.FilterStations | calculations/muf_calculator.py:151-178 | the filter loop returns the kept stations in feed order |
| MufCalculator.FetchedStations | calculations/muf_calculator.py:128-187 | a cache younger than the cache lifetime is reused; otherwise a fetched feed is filtered; a failed fetch gives the stale cache or the empty list |
| MufCalculator.NormalizeLon | calculations/muf_calculator.py:194-198 | a negative longitude is shifted by 360, so every longitude in [-180, 180) lands in [0, 360) |
| MufCalculator.NearestOf | calculations/muf_calculator.py:189-216 | the scan finds a station exactly when the list is non-empty |
| MufCalculator.NearestIsFirstClosest | calculations/muf_calculator.py:203-214 | the scan returns the first station at the least distance, with that distance, because only a strictly closer one replaces the choice |
| MufCalculator.FindNearestStation | calculations/muf_calculator.py:189-216 | the loop of `_find_nearest_station` computes the scan on the normalised longitude |
| MufCalculator.DistanceFactor | calculations/muf_calculator.py:110-111 | the distance factor falls linearly from 1 to one half at 2000 km and stays at one half beyond |
| MufCalculator.StationConfidence | calculations/muf_calculator.py:107-112 | the reported confidence lies between half and all of the station's score divided by 100 |
| MufCalculator.IonosondeMuf | calculations/muf_calculator.py:94-127 | a reading exists exactly when there is a station |
| MufCalculator.IonosondeFromNearest | calculations/muf_calculator.py:94-127 | the reading is that of a first closest station, and its confidence never exceeds the station's own scaled score |
| MufCalculator.KAdjustment | calculations/muf_calculator.py:253-262 | the K reduction is 5% per point above 2, between one half and one, and none at K 2 or less |
| MufCalculator.AAdjustment | calculations/muf_calculator.py:256-262 | the A reduction is 1% per point above 10, between one half and one, and none at A 10 or less |
| MufCalculator.AdjustmentsMonotone | calculations/muf_calculator.py:253-262 | a higher K or A index never gives a larger factor |
| MufCalculator.LatWeight | calculations/muf_calculator.py:326-328 | the latitude weight lies in [0.2, 1] and is at least 0.8 between 30 and 50 degrees |
| MufCalculator.LatWeightSymmetric | calculations/muf_calculator.py:326-328 | the weight is the same north and south of the equator |
| MufCalculator.SeasonalFactor | calculations/muf_calculator.py:330-346 | the seasonal factor lies in [0.9, 1.1], is 1 in May and November, and never reduces in an equinox month |
| MufCalculator.OppositeMonth | calculations/muf_calculator.py:330-346 | the month six months away is a different month in 1..12 |
| MufCalculator.SeasonalHemisphereSwap | calculations/muf_calculator.py:333-344 | the southern hemisphere gets, each month, the factor the same northern latitude gets six months later |
| MufCalculator.ApplySeasonalAdjustment | calculations/muf_calculator.py:321-348 | the adjusted MUF stays within 10% of the input |
| MufCalculator.FormulaMuf | calculations/muf_calculator.py:232-241 | MUF(3000) is 3 times 0.75 times the square root of the SFI |
| MufCalculator.EnhancedMufRange | calculations/muf_calculator.py:243-274 | the enhanced MUF is between 0.225 and 1.1 times the formula MUF, and equals it in quiet conditions in May or November |
| MufCalculator.MufConfidence | calculations/muf_calculator.py:305-320 | 0.65 when the MUF is within 20% of the formula MUF, 0.55 within 40%, otherwise 0.45 (also when the formula MUF is zero) |
| MufCalculator.FallbackMuf | calculations/muf_calculator.py:349-359 | the fallback is 21 MHz with confidence 0.3 |
| MufCalculator.MufReportCases | calculations/muf_calculator.py:53-91 | a negative SFI gives the fallback (the square root raises); otherwise a station gives an ionosonde reading and no station the adjusted formula MUF with its confidence |
| MufCalculator.MufCalculator.constructor | calculations/muf_calculator.py:34-42 | a new calculator has no station cache |
| MufCalculator.MufCalculator.FetchIonosondeData | calculations/muf_calculator.py:128-187 | returns the fetched stations; a successful fetch replaces the cache and its time, otherwise the cache is kept |
| MufCalculator.MufCalculator.GetIonosondeMuf | calculations/muf_calculator.py:94-127 | the reading from the fetched stations, with the cache updated as by the fetch |
| MufCalculator.MufCalculator.CalculateMuf | calculations/muf_calculator.py:43-92 | the MUF report for the solar data, with the coordinates defaulting to 40 N, 100 W |
| BandOptimizer.KFactor | calculations/band_optimizer.py:62-68 | the K degradation factor is 1 below K 3 and never less than 0.7 |
| BandOptimizer.EstimatedMuf | calculations/band_optimizer.py:59-68 | the degraded MUF estimate lies between 8.4 and 40 MHz |
| BandOptimizer.EstimatedMufMonotone | calculations/band_optimizer.py:59-68 | a higher SFI never lowers the estimate and a higher K never raises it |
| BandOptimizer.BandQuality | calculations/band_optimizer.py:57-83 | one of the five labels; "Excellent" only by day with K at most 2; a band above the estimated MUF is "Poor" |
| BandOptimizer.QualityToScore | calculations/band_optimizer.py:85-88 | 5 down to 1 for the five labels and 2 for any other text |
| BandOptimizer.QualityMonotoneInFrequency | calculations/band_optimizer.py:57-88 | under the same conditions a higher band never scores better than a lower one |
| BandOptimizer.BaseEntry | calculations/band_optimizer.py:48-54 | a band's entry carries its frequency, its quality and the score of that quality |
| BandOptimizer.BaseBands | calculations/band_optimizer.py:44-55 | one entry per row of the frequency table, in table order |
| BandOptimizer.GetBaseBandRecommendations | calculations/band_optimizer.py:44-55 | the loop builds the table-ordered entries |
| BandOptimizer.BoostBands | calculations/band_optimizer.py:93-100 | each period's boosted bands are distinct |
| BandOptimizer.BoostFactor | calculations/band_optimizer.py:101 | the boost is 1.3 or 1.2 |
| BandOptimizer.Scaled | calculations/band_optimizer.py:105 | scaling an entry multiplies its score and keeps the rest |
| BandOptimizer.ApplyTimeAdjustments | calculations/band_optimizer.py:90-107 | the loop over the period's bands computes the boosted table |
| BandOptimizer.TimeAdjustmentsEffect | calculations/band_optimizer.py:90-107 | exactly the period's bands are boosted, by 1.3 at midday and 1.2 otherwise; nothing else changes, and an unknown period changes nothing |
| BandOptimizer.SortBandsByQuality | calculations/band_optimizer.py:109-111 | the sort is a permutation of the entries |
| BandOptimizer.SortBandsByQualityOrdered | calculations/band_optimizer.py:109-111 | the result is in non-increasing score order and entries of equal score keep their input order |
| BandOptimizer.BandConfidence | calculations/band_optimizer.py:113-124 | the confidence is in [0.3, 1]; it is 1 exactly when K is at most 2 and SFI is in [80, 150]; it is at most 0.7 above K 4 |
| BandOptimizer.FallbackBands | calculations/band_optimizer.py:126-137 | the fallback lists three bands with confidence 0.3 and period "unknown" |
| BandOptimizer.OptimizeBands | calculations/band_optimizer.py:22-42 | base entries, then the time boost, then the sort; the band confidence; and the period and daytime entries with their defaults |
| BandOptimizer.OptimizedCoversEveryBand | calculations/band_optimizer.py:22-42 | the result has one entry per band of the table with that band's frequency, in non-increasing score order |
| PropagationCalculator.Quality | calculations/propagation_calculator.py:42-53 | one of five labels; "Excellent" exactly when all three top thresholds hold; "Poor" exactly when the "Fair" thresholds fail |
| PropagationCalculator.QualityMonotone | calculations/propagation_calculator.py:42-53 | better MUF, SFI and K never give a worse label |
| PropagationCalculator.TierBands | calculations/propagation_calculator.py:57-73 | each MUF tier lists two to five bands |
| PropagationCalculator.StormFiltered | calculations/propagation_calculator.py:75-79 | the storm filter keeps a subset: only the three low bands at K 6 or more, only the five lower bands at K 5, all below K 5 |
| PropagationCalculator.BestBands | calculations/propagation_calculator.py:55-81 | one to five table bands, the storm restrictions hold, and below K 5 it is the tier's list |
| PropagationCalculator.KnownBands | calculations/propagation_calculator.py:57-73 | every band a tier names is in the frequency table |
| PropagationCalculator.HighMufBands | calculations/propagation_calculator.py:58-59 | with a MUF of 28 or more and K below 5 the five highest bands are chosen |
| PropagationCalculator.SevereStormHighMuf | calculations/propagation_calculator.py:60-81 | a severe storm with MUF of 24 or more filters out every band and leaves the fixed pair 40m, 80m |
| PropagationCalculator.Confidence | calculations/propagation_calculator.py:83-96 | the confidence is in [0.3, 1]; it is 1 exactly when K is at most 2 and SFI is in [80, 150]; a storm with SFI outside [60, 200] gives 0.5 |
| PropagationCalculator.CalculatePropagation | calculations/propagation_calculator.py:22-40 | the MUF defaults to 15; the quality, best bands and confidence follow from the MUF and the extracted SFI and K |
| PropagationCalculator.FallbackPropagation | calculations/propagation_calculator.py:98-107 | the fallback is "Fair" with confidence 0.3 and bands 20m, 40m, 80m |
| Helpers.ParseOr | calculations/helpers.py:11-16 | the parsed number, or the default where `float` raises |
| Helpers.ExtractSfi | calculations/helpers.py:9-16 | a numeric reading passes through unchanged; `None` gives the default 100 |
| Helpers.ExtractKIndex | calculations/helpers.py:19-25 | a numeric reading passes through unchanged; `None` gives the default 2 |
| Helpers.ExtractAIndex | calculations/helpers.py:28-34 | a numeric reading passes through unchanged; `None` gives the default 5 |
| Helpers.NoneIsNotNumber | calculations/helpers.py:12-16 | the text "None" has no " SFI" to remove, strips to itself and does not parse |
| Helpers.ExtractDefaults | calculations/helpers.py:9-34 | a missing key reads its default text, which parses to 100, 2 and 5 |
| Helpers.SfiDefault | calculations/helpers.py:12-14 | the default text "100 SFI" reads as 100 |
| Helpers.DigitDefault | calculations/helpers.py:22-32 | the default texts "2" and "5" read as 2 and 5 |
| Helpers.ExtractSfiSuffix | calculations/helpers.py:12-14 | a reading such as "150 SFI" loses its unit and reads as the number |
| Helpers.ExtractSfiText | calculations/helpers.py:9-16 | text without the unit reads as its number, and text that is not a number gives 100 |
| Helpers.RemoveSfiSuffix | calculations/helpers.py:13 | removing " SFI" from digits followed by the unit leaves the digits |
| Helpers.LookupMuf | calculations/helpers.py:37-42 | the table search returns the MUF of a row whose threshold the SFI reaches, or 12 |
| Helpers.GetBaseMufFromSfi | calculations/helpers.py:37-42 | the base MUF is one of the table's values or 12; 40 from SFI 150 on, 12 below 60 |
| Helpers.LookupAtMostHead | calculations/helpers.py:37-42 | on a descending table the search never returns more than the first row's MUF |
| Helpers.LookupMonotone | calculations/helpers.py:37-42 | on a descending table a higher SFI never gives a lower MUF |
| Helpers.BaseMufMonotone | calculations/helpers.py:37-42 | a higher solar flux never gives a lower base MUF |
| Constants.MufTableOrdered | calculations/constants.py:20-29 | the thresholds and the MUF values strictly decrease along the table, which ends at threshold 0 |
| Constants.BandFrequenciesIncreasing | calculations/constants.py:6-19 | band frequencies are positive and strictly increase from 160m to 6m, and the band names are distinct |
| Constants.MufRangeNonEmpty | calculations/constants.py:40-41 | the MUF range is not empty |
| TimeAnalyzer.SunriseSunset | calculations/time_analyzer.py:67-86 | 6 and 18, one hour shorter days in December to February and longer in June to August; sunrise comes first and the two add to 24 |
| TimeAnalyzer.SunriseSunsetHemisphere | calculations/time_analyzer.py:70-75 | both hemisphere branches give the same hours |
| TimeAnalyzer.TimePeriod | calculations/time_analyzer.py:88-108 | the period is one of the nine names, and it is "late_night" exactly from 23:00 to 5:00 |
| TimeAnalyzer.PeriodsInOrder | calculations/time_analyzer.py:88-108 | between 5:00 and 23:00 a later hour never falls in an earlier period |
| TimeAnalyzer.PeriodBoundaries | calculations/time_analyzer.py:93-108 | the period boundaries fall at sunrise, +2, +4, sunset-4, sunset-2, sunset and sunset+2 |
| TimeAnalyzer.AnalyzeCurrentTime | calculations/time_analyzer.py:31-65 | the hour is kept; daytime exactly between sunrise and sunset; the period `_determine_time_period` gives for that hour and the table's sunrise and sunset, and its description; the fallback when the time zone is unknown |
| TimeAnalyzer.DaylightPeriods | calculations/time_analyzer.py:42-46 | in daylight the period is never one of the night periods |
| TimeAnalyzer.FallbackTime | calculations/time_analyzer.py:110-122 | the fallback is midday at 12:00, by day |
| AccuracyTracker.RelativeAccuracy | validation/accuracy_tracker.py:118-123 | no actual value gives 0; a prediction equal to the actual value gives 1; the accuracy is never negative and at most 1 for a positive actual value |
| AccuracyTracker.MufAccuracy | validation/accuracy_tracker.py:113-133 | no actual MUF gives 0; an exact MUF prediction gives 1; for a positive actual MUF the accuracy lies in [0, 1] |
| AccuracyTracker.PropagationAccuracy | validation/accuracy_tracker.py:169-187 | no actual score gives 0; for a positive actual score the accuracy lies in [0, 1] |
| AccuracyTracker.QualityScore | validation/accuracy_tracker.py:151-153 | at most 5, and 0 exactly for a label outside Excellent, Very Good, Good, Fair, Poor |
| AccuracyTracker.BandScores | validation/accuracy_tracker.py:144-157 | at most one score per compared band, each in [0, 1] |
| AccuracyTracker.BandAccuracy | validation/accuracy_tracker.py:135-167 | in [0, 1]; 0 without actual bands or without any band both sides rate |
| AccuracyTracker.BandScoresOnlyNamed | validation/accuracy_tracker.py:145-146 | band maps that agree on the listed bands give the same scores |
| AccuracyTracker.BandAccuracyOnlyCompared | validation/accuracy_tracker.py:140-159 | only 20m, 40m, 80m, 15m and 10m (and whether the actual map is empty) decide the band accuracy |
| AccuracyTracker.IndexOf | validation/accuracy_tracker.py:213 | the first position holding the band |
| AccuracyTracker.PositionCredit | validation/accuracy_tracker.py:212-215 | a credit in [0, 1], full when the band is predicted at the same position |
| AccuracyTracker.PositionAccuracy | validation/accuracy_tracker.py:210-217 | the averaged position credit of the top five actual bands lies in [0, 1] |
| AccuracyTracker.BestBandsAccuracy | validation/accuracy_tracker.py:189-230 | no actual bands gives 0; otherwise the mean of the Jaccard similarity and the position accuracy, in [0, 1] |
| AccuracyTracker.BestBandsIdentical | validation/accuracy_tracker.py:198-219 | a non-empty list of distinct bands matched against itself scores exactly 1 |
| AccuracyTracker.AccuracyMetrics | validation/accuracy_tracker.py:84-111 | the type is kept; an error is recorded exactly for an unknown type, with overall accuracy 0; muf, band_quality, propagation_score and best_bands each take the overall accuracy from their own measure |
| AccuracyTracker.Trend | validation/accuracy_tracker.py:286-303 | one of the four labels, and "insufficient_data" exactly for fewer than two values |
| AccuracyTracker.TrendOfLine | validation/accuracy_tracker.py:291-303 | values on a straight line are classified by its gradient against the 0.01 dead band |
| AccuracyTracker.BoundedAppend | validation/accuracy_tracker.py:24 | the bounded history append keeps the newest `capacity` entries, ending with the new one |
| AccuracyTracker.Window | validation/accuracy_tracker.py:252-259 | only history entries inside the look-back and of the asked type are kept |
| AccuracyTracker.MedianInRange | validation/accuracy_tracker.py:272 | the median lies between the minimum and the maximum |
| AccuracyTracker.Recent | validation/accuracy_tracker.py:277 | the mean of the last 24 values when there are 24, of all values otherwise |
| AccuracyTracker.Summarize | validation/accuracy_tracker.py:247-280 | an error exactly when no entry falls in the window; otherwise the count is the window's size |
| AccuracyTracker.SummaryOf | validation/accuracy_tracker.py:261-280 | an error exactly for no entries; otherwise the count of entries, the asked days, a non-negative variance, the trend of the accuracies in order, and the type or "all" |
| AccuracyTracker.SummarizeIsSummaryOf | validation/accuracy_tracker.py:252-280 | the statistics of the filtered window are the summary of the history |
| AccuracyTracker.FilterWindow | validation/accuracy_tracker.py:252-259 | the filter loop keeps exactly the entries of the window, in order |
| AccuracyTracker.SummaryOrdered | validation/accuracy_tracker.py:267-278 | minimum <= mean, median and recent accuracy <= maximum |
| AccuracyTracker.StatisticsOrdered | validation/accuracy_tracker.py:271-277 | for any non-empty accuracies, minimum <= mean, median and recent mean <= maximum |
| AccuracyTracker.WindowSnoc | validation/accuracy_tracker.py:255-259 | one more history entry extends the window by itself exactly when it is in the window |
| AccuracyTracker.PredictionConfidence | validation/accuracy_tracker.py:305-310 | no summary gives the default 0.5 |
| AccuracyTracker.ConfidenceFollowsTrend | validation/accuracy_tracker.py:312-323 | improving adds 0.1 capped at 0.95, declining subtracts 0.1 floored at 0.1, otherwise the recent accuracy; stays in [0, 1] |
| AccuracyTracker.Validated | validation/accuracy_tracker.py:65-69 | the record becomes validated with the actual result, its metrics and the validation time, other fields kept |
| AccuracyTracker.OutcomeOf | validation/accuracy_tracker.py:53-78 | a missing record gives "Prediction not found"; metrics are reported exactly when a prediction record was found, and they are that record's metrics |
| AccuracyTracker.AccuracyTracker.constructor | validation/accuracy_tracker.py:22-25 | an empty history with the given number of days |
| AccuracyTracker.AccuracyTracker.RecordPrediction | validation/accuracy_tracker.py:27-47 | the identifier is type + "_" + timestamp; the pending record is stored in the predictions namespace when it is registered |
| AccuracyTracker.AccuracyTracker.AddToAccuracyHistory | validation/accuracy_tracker.py:232-245 | exactly one entry is appended to the bounded history; the whole history can be read back under the type_day key when the namespace is registered; every other namespace is unchanged |
| AccuracyTracker.AccuracyTracker.RecordActualResult | validation/accuracy_tracker.py:49-82 | a missing prediction reports an error and leaves the history unchanged; a found one is reported with its metrics, its validated record can be read back for the seven-day lifetime, one entry is appended and the history is stored under the type_day key |
| AccuracyTracker.AccuracyTracker.GetAccuracySummary | validation/accuracy_tracker.py:247-280 | the filter loop's window feeds `SummaryOf`, and the result is the summary of the history |
| AccuracyTracker.AccuracyTracker.GetPredictionConfidence | validation/accuracy_tracker.py:305-323 | the confidence from the seven-day summary of the type |
| AccuracyTracker.RecordWithDefaultManager | validation/accuracy_tracker.py:44-56 | with the default manager, every validation reports "Prediction not found" |
| HistoricalValidator.Present | validation/historical_validator.py:76 | exactly the values of the entries that carry the field: nothing else, and none of them dropped |
| HistoricalValidator.PresentConcat | validation/historical_validator.py:76 | the values keep the history order: collecting them distributes over concatenation |
| HistoricalValidator.LastN | validation/historical_validator.py:94 | the last (at most) n values, as Python's `s[-n:]` |
| HistoricalValidator.RecentTrend | validation/historical_validator.py:334-344 | fewer than two values have trend 0 |
| HistoricalValidator.RecentTrendOfLine | validation/historical_validator.py:339-344 | values on an exact straight line have its gradient as trend |
| HistoricalValidator.TrendConsistencyMeaning | validation/historical_validator.py:346-353 | a rising trend accepts exactly predictions at or above the last value, a falling one those at or below, a flat one those within 2; repeating the last value is always consistent |
| HistoricalValidator.WithinOneStdMeaning | validation/historical_validator.py:91 | "within one standard deviation" is exactly a distance to the mean of at most the deviation |
| HistoricalValidator.Severity | validation/historical_validator.py:119 | "high" exactly outside the range, "medium" exactly inside it but beyond one deviation, "none" otherwise |
| HistoricalValidator.Direction | validation/historical_validator.py:114 | "increasing" exactly for a positive trend, "decreasing" exactly for a negative one |
| HistoricalValidator.MufAgainstHistory | validation/historical_validator.py:70-122 | the anomaly flag, severity, range, deviation and trend checks each mean what their names say about the historical MUFs |
| HistoricalValidator.MeanIsNotAnomalous | validation/historical_validator.py:82-119 | predicting the historical mean is never an anomaly |
| HistoricalValidator.Count | validation/historical_validator.py:144-146 | a tally is positive exactly for a value that occurs |
| HistoricalValidator.FirstOccurrences | validation/historical_validator.py:144-146 | the tally keys in insertion order: each value once, exactly the values present |
| HistoricalValidator.TallyStep | validation/historical_validator.py:146 | one `+= 1` on the defaultdict extends the tally by one value |
| HistoricalValidator.CountOccurrences | validation/historical_validator.py:144-146 | the tally loop yields each value's number of occurrences, keyed in first-seen order |
| HistoricalValidator.MostCommonAt | validation/historical_validator.py:148 | the position of the first key, in the tally's order, whose count no key exceeds; every earlier key has a smaller count |
| HistoricalValidator.MostCommon | validation/historical_validator.py:148 | a key whose count no other key exceeds |
| HistoricalValidator.Tally | validation/historical_validator.py:144-146 | the defaultdict as a map: exactly the values present, each with its number of occurrences |
| HistoricalValidator.Mode | validation/historical_validator.py:144-148 | a most frequent value; every value first seen before it is strictly less frequent |
| HistoricalValidator.BandQualityTrend | validation/historical_validator.py:361-376 | one of three labels, and "stable" for fewer than two labels |
| HistoricalValidator.BandQualityTrendOfSteps | validation/historical_validator.py:366-372 | labels rising one quality step per entry are improving |
| HistoricalValidator.CheckedBands | validation/historical_validator.py:137-138 | the predicted bands with historical qualities, and only those |
| HistoricalValidator.ExpectedCheck | validation/historical_validator.py:140-158 | the check of one band is about that band and its predicted quality |
| HistoricalValidator.CheckBand | validation/historical_validator.py:140-158 | the tally loop and `max` give the check with the band's historical mode and the trend of its last seven qualities |
| HistoricalValidator.BandChecksPairs | validation/historical_validator.py:137-158 | the checks are about the predicted bands with history, one each, in the predicted order |
| HistoricalValidator.BandChecksAgainstHistory | validation/historical_validator.py:137-158 | every check belongs to a predicted band, names that band's mode and trend, and is consistent exactly when the prediction equals the mode |
| HistoricalValidator.BandQualityAgainstHistory | validation/historical_validator.py:124-167 | one check per predicted band with history, in order, each as `ExpectedCheck` gives it; the overall consistency is the matching fraction, in [0, 1], 0 when nothing is checked |
| HistoricalValidator.ConsistentFraction | validation/historical_validator.py:165 | a fraction in [0, 1], 0 for no checks |
| HistoricalValidator.PropagationAgainstHistory | validation/historical_validator.py:169-202 | the deviation check compares with the historical spread; the time and solar checks always pass |
| HistoricalValidator.BandsConsistency | validation/historical_validator.py:390-406 | a mean Jaccard similarity in [0, 1], 0 when there is no non-empty history |
| HistoricalValidator.Similarities | validation/historical_validator.py:395-404 | one similarity in [0, 1] per non-empty historical list |
| HistoricalValidator.EmptySetsSkipped | validation/historical_validator.py:397 | empty historical lists do not change the consistency |
| HistoricalValidator.TallyList | validation/historical_validator.py:218-219 | the inner loop extends the tally by one list's bands |
| HistoricalValidator.BandFrequency | validation/historical_validator.py:216-219 | the nested tally counts each band's occurrences over all historical lists |
| HistoricalValidator.TallyIsTally | validation/historical_validator.py:216-219 | the loop's tally is `Tally` of all the bands, keyed in first-seen order |
| HistoricalValidator.BandItems | validation/historical_validator.py:238 | `items()` of the tally: each band with its count, in first-seen order |
| HistoricalValidator.MostCommonBands | validation/historical_validator.py:238 | five bands (fewer only when fewer exist) with their counts, most frequent first |
| HistoricalValidator.MostCommonBandsTop | validation/historical_validator.py:238 | no band left out is more frequent than the last one listed |
| HistoricalValidator.MostCommonBandsStable | validation/historical_validator.py:238 | bands with equal counts are listed in first-seen order, as Python's stable sort keeps them |
| HistoricalValidator.TallyTopBound | validation/historical_validator.py:216-238 | in terms of the bands themselves: none left out occurs more often than the last one listed |
| HistoricalValidator.MostCommonBandsOfSequence | validation/historical_validator.py:216-238 | the five most common bands of a sequence: how many, their order, their counts and that nothing more frequent is left out |
| HistoricalValidator.FrequencyScoresOf | validation/historical_validator.py:221-227 | each predicted band's count over all lists divided by the number of lists |
| HistoricalValidator.BandsCheckOf | validation/historical_validator.py:221-240 | the scores, the recent consistency, their mean (0 for no prediction) and the five most common bands |
| HistoricalValidator.FrequencyScores | validation/historical_validator.py:221-227 | one score per predicted band: its number of occurrences over all historical lists divided by the number of lists |
| HistoricalValidator.BandsAgainstHistory | validation/historical_validator.py:204-240 | one frequency score per predicted band; the recent consistency uses the last seven lists; the overall score is their mean; the five most common bands, counted, ordered, with nothing more frequent left out; the whole result equals `BandsCheckOf` |
| HistoricalValidator.HistoricalConfidence | validation/historical_validator.py:418-451 | base 0.5, clamped to [0, 1] |
| HistoricalValidator.ConfidenceMonotone | validation/historical_validator.py:428-435 | passing a check never lowers the confidence |
| HistoricalValidator.ValidateAgainstHistory | validation/historical_validator.py:25-59 | no history gives the error and confidence 0; otherwise each of muf, band_quality, propagation_score and best_bands gets exactly its check, or its "No historical ... data" error and confidence 0.5, and any other type no detail at confidence 0.5 |
| CrossValidator.TraditionalMuf | validation/cross_validator.py:130-142 | a non-negative MUF whose square is 0.34² times the SFI |
| CrossValidator.SimplifiedMuf | validation/cross_validator.py:147-159 | a non-negative SFI gives a non-negative MUF |
| CrossValidator.GeographicMuf | validation/cross_validator.py:164-184 | 0.8 times the MUF above latitude 60, 1.2 times below 30, unchanged between |
| CrossValidator.GeographicMufBounds | validation/cross_validator.py:172-177 | a non-negative MUF changes by at most 20% either way |
| CrossValidator.FrequencyBands | validation/cross_validator.py:189-210 | the band tier for MUF thresholds 28, 21 and 14 MHz; three to five distinct real bands |
| CrossValidator.ActivityBands | validation/cross_validator.py:215-227 | five distinct real bands |
| CrossValidator.TimeBands | validation/cross_validator.py:232-252 | the morning, afternoon, evening and night lists by the hour of the local clock (`datetime.now().hour`), each five distinct real bands |
| CrossValidator.DeviationScore | validation/cross_validator.py:268-271 | non-negative; for a positive mean at most 1, and 1 exactly for the mean itself |
| CrossValidator.MufConsistencyOf | validation/cross_validator.py:257-274 | one score per value; all 1 for fewer than two values or a zero mean |
| CrossValidator.MufConsistencyBounds | validation/cross_validator.py:266-274 | with a positive mean every score is in [0, 1], and 1 exactly for a value equal to the mean |
| CrossValidator.MufConsistency | validation/cross_validator.py:257-274 | the loop computes the consistency scores |
| CrossValidator.Similarity | validation/cross_validator.py:287-294 | in [0, 1]; 1 for two empty or equal sets, 0 when just one is empty |
| CrossValidator.SimilaritySymmetric | validation/cross_validator.py:287-294 | the similarity of two sets does not depend on their order |
| CrossValidator.SimilarityFormula | validation/cross_validator.py:292-294 | for two non-empty sets, the intersection size over the union size |
| CrossValidator.OthersSimilarity | validation/cross_validator.py:284-295 | one similarity in [0, 1] per other set |
| CrossValidator.OthersSimilarityEqual | validation/cross_validator.py:284-295 | equal sets are all similarity 1 |
| CrossValidator.BandConsistencyOf | validation/cross_validator.py:276-300 | one score in [0, 1] per set; all 1 for fewer than two sets |
| CrossValidator.SetConsistency | validation/cross_validator.py:297 | the mean similarity with the other sets lies in [0, 1] |
| CrossValidator.BandConsistencyIdentical | validation/cross_validator.py:276-300 | identical selections agree completely |
| CrossValidator.BandConsistency | validation/cross_validator.py:276-300 | the nested loop computes the band consistency scores |
| CrossValidator.SimilaritiesWith | validation/cross_validator.py:284-295 | the similarities of set i with every other set, in order, skipping i itself |
| CrossValidator.AgreementLevel | validation/cross_validator.py:302-311 | "high" exactly from 0.8, "medium" exactly in [0.6, 0.8), "very_low" exactly below 0.4 |
| CrossValidator.AgreementLevelMonotone | validation/cross_validator.py:302-311 | a higher consistency never gets a lower level |
| CrossValidator.MufRecommendations | validation/cross_validator.py:313-334 | one tier line (high from 0.8, moderate from 0.6, low below), plus a variation warning exactly when the deviation exceeds a fifth of the mean |
| CrossValidator.VariationMeaning | validation/cross_validator.py:331 | the deviation exceeds a fifth of the mean exactly when the mean is negative or the variance exceeds 0.04 times its square |
| CrossValidator.CommonBands | validation/cross_validator.py:350-355 | exactly the bands every selection contains |
| CrossValidator.BandRecommendations | validation/cross_validator.py:336-359 | one tier line, plus the common-bands line exactly when some band is common to all selections |
| CrossValidator.Keyed | validation/cross_validator.py:78 | the scores paired with the method names in order |
| CrossValidator.MufValues | validation/cross_validator.py:75 | four values, the prediction's MUF first (0 when missing) |
| CrossValidator.BandSets | validation/cross_validator.py:111 | four sets, the predicted bands first |
| CrossValidator.CrossValidate | validation/cross_validator.py:26-128 | the type is kept; a MUF prediction gets the per-method consistency scores, their mean, its level and the MUF recommendation lines when the SFI is non-negative, and no error for any SFI; a best-bands prediction gets its scores, level and recommendations; other types get the not-implemented error |
| PredictionValidator.Consistency | validation/prediction_validator.py:208-223 | never negative; 1 for fewer than two values or a zero mean; at most 1 for a positive mean |
| PredictionValidator.ConsistencyConstant | validation/prediction_validator.py:208-223 | identical positive values are fully consistent |
| PredictionValidator.AlternativeMufs | validation/prediction_validator.py:162-179 | two alternatives, 10% below and 10% above a positive MUF |
| PredictionValidator.AlternativesVariance | validation/prediction_validator.py:139-140 | a MUF and its two alternatives have the MUF as mean and two thirds of (MUF/10)² as variance |
| PredictionValidator.Row | validation/prediction_validator.py:233-243 | one similarity in [0, 1] for each later set |
| PredictionValidator.Pairs | validation/prediction_validator.py:231-243 | every pairwise similarity lies in [0, 1], and there is one for two or more sets |
| PredictionValidator.BandAgreementOf | validation/prediction_validator.py:225-245 | in [0, 1], and 1 for fewer than two sets |
| PredictionValidator.RowEqual | validation/prediction_validator.py:233-243 | equal sets give similarity 1 throughout a row |
| PredictionValidator.PairsEqual | validation/prediction_validator.py:231-243 | equal sets give similarity 1 for every pair |
| PredictionValidator.BandAgreementIdentical | validation/prediction_validator.py:225-245 | identical selections agree completely |
| PredictionValidator.BandAgreement | validation/prediction_validator.py:225-245 | the nested pair loop computes the band agreement |
| PredictionValidator.AppendRow | validation/prediction_validator.py:233-243 | the list so far extended by the similarities of set i with each later set, in order |
| PredictionValidator.AlternativeBands | validation/prediction_validator.py:184-203 | both alternatives hold the same multiset of bands as the original; an empty list gives two empty lists |
| PredictionValidator.RotationElements | validation/prediction_validator.py:194-199 | both rotations have the same band set as the original |
| PredictionValidator.AlternativeBandsAgree | validation/prediction_validator.py:144-154 | cross-validating best bands against their own rotations always agrees completely |
| PredictionValidator.OverallScore | validation/prediction_validator.py:258-294 | in [0, 1]; 0.5 without any component; the 0.4/0.3/0.3 weighted mean when all are present |
| PredictionValidator.OverallScoreBetween | validation/prediction_validator.py:284-290 | the weighted mean lies between the smallest and largest component present |
| PredictionValidator.Recommendations | validation/prediction_validator.py:307-328 | never empty; each advice line appears exactly under its condition, and the closing line exactly when no other does |
| PredictionValidator.FailedReport | validation/prediction_validator.py:71-81 | a failure has status failed, score 0 and level "low" |
| PredictionValidator.PerformCrossValidation | validation/prediction_validator.py:119-160 | MUF: consistency with the alternatives and its level; best bands: 1 and "high"; other types: 0 and "unknown" |
| PredictionValidator.ValidatePrediction | validation/prediction_validator.py:26-69 | a completed report whose score, level and recommendations follow from the three components; the cross score is the consistency of the MUF with its alternatives for "muf", 1 for "best_bands" and 0 ("unknown") for any other type |
| RealTimeValidator.RelativeError | validation/real_time_validator.py:57 | never negative; 1 for a non-positive observation; 0 exactly for an exact prediction of a positive one |
| RealTimeValidator.ErrorScore | validation/real_time_validator.py:60 | for a positive tolerance, in [0, 1], 1 exactly for no error and 0 from one tolerance of error |
| RealTimeValidator.ErrorScoreMonotone | validation/real_time_validator.py:60 | a larger error never scores higher |
| RealTimeValidator.MufChecks | validation/real_time_validator.py:53-69 | one check per source that reported a MUF, in order, with its error and score; none without readings |
| RealTimeValidator.MufChecksComplete | validation/real_time_validator.py:54-69 | every source with a reading is checked under its own name |
| RealTimeValidator.MufChecksStep | validation/real_time_validator.py:54-69 | one more source extends the checks by its check exactly when it has a reading |
| RealTimeValidator.MufChecksReadings | validation/real_time_validator.py:55-69 | every check carries a reading some source reported |
| RealTimeValidator.SummaryBounds | validation/real_time_validator.py:71-73 | the mean score lies in [0, 1] and the confidence, capped at 0.95, in [0.1, 0.95]; no scores give (0, 0) |
| RealTimeValidator.ValidateMufPrediction | validation/real_time_validator.py:32-85 | when no source returned anything (`real_time_data` empty, lines 48-50 with 243) the error line; otherwise the checks and their summary; a zero tolerance that meets a reading ends in the failure record |
| RealTimeValidator.MufValidationBounds | validation/real_time_validator.py:55-73 | with a positive tolerance the score lies in [0, 1] and, once scored, the confidence in [0.1, 0.95] |
| RealTimeValidator.ExactMufScoresOne | validation/real_time_validator.py:55-73 | a prediction matching every positive reading scores 1 with confidence 0.95 |
| RealTimeValidator.BandScore | validation/real_time_validator.py:117-126 | 0 for a band no source reports; otherwise at most 1, and 1 exactly from a mean activity of 100 |
| RealTimeValidator.BandScoreBounds | validation/real_time_validator.py:117-126 | with non-negative activity every band score lies in [0, 1] |
| RealTimeValidator.BandScores | validation/real_time_validator.py:116-126 | one score per predicted band, in order |
| RealTimeValidator.BandChecks | validation/real_time_validator.py:133-140 | the sources that returned something, in source order; empty exactly when no source returned anything |
| RealTimeValidator.BandChecksComplete | validation/real_time_validator.py:133-140 | every source that returned something has its entry, with its figures and spot count (defaults `{}` and 0) |
| RealTimeValidator.BandChecksSound | validation/real_time_validator.py:133-140 | every entry is the entry of a source that returned something |
| RealTimeValidator.TabulateActivity | validation/real_time_validator.py:107-113 | the nested loop gathers, per band, every source's figures in order |
| RealTimeValidator.TabulatePairs | validation/real_time_validator.py:110-113 | appending one source's (band, figure) pairs to a table of earlier sources gives, per band, the earlier figures followed by this source's in order; a band appears exactly when it has a figure |
| RealTimeValidator.TableLookup | validation/real_time_validator.py:111-118 | a band is in the table exactly when some source reports it, with all its figures |
| RealTimeValidator.ScorePredictedBands | validation/real_time_validator.py:116-126 | the scoring loop computes each predicted band's score |
| RealTimeValidator.ScoreBand | validation/real_time_validator.py:117-126 | one band's score from the tabulated activities is its `BandScore`: capped mean over 100, or 0 for a band no source reports |
| RealTimeValidator.ListBandSources | validation/real_time_validator.py:133-140 | the listing loop lists the sources that returned something |
| RealTimeValidator.ValidateBandPrediction | validation/real_time_validator.py:87-142 | when no source returned anything (`activity_data` empty, lines 102-104 with 269) the error line; otherwise the band scores, their summary and the sources listed |
| RealTimeValidator.BandValidationBounds | validation/real_time_validator.py:128-130 | with non-negative activity the score lies in [0, 1], and the confidence in [0.1, 0.95] once a band is scored |
| RealTimeValidator.QualityScore | validation/real_time_validator.py:395-419 | in [0.2, 1]; 1 exactly for a quiet field (K at most 2) with total activity over 100 |
| RealTimeValidator.QualityScoreMonotoneInK | validation/real_time_validator.py:401-407 | a quieter geomagnetic field never lowers the score |
| RealTimeValidator.QualityScoreMonotoneInActivity | validation/real_time_validator.py:410-417 | more total activity never lowers the score |
| RealTimeValidator.QualityLevel | validation/real_time_validator.py:191-201 | the level thresholds are 0.8, 0.6, 0.4 and 0.2 |
| RealTimeValidator.LevelIndex | validation/real_time_validator.py:204-205 | the label's position in the list, 0 for an unknown label |
| RealTimeValidator.LevelScore | validation/real_time_validator.py:209-210 | a quarter step per level of difference; 1 exactly for equal levels, 0 exactly for Poor against Excellent |
| RealTimeValidator.UnknownLabelIsPoor | validation/real_time_validator.py:205 | an unknown predicted label scores as 'Poor' |
| RealTimeValidator.QualityChecks | validation/real_time_validator.py:174-186 | entries in source order, each in [0.2, 1]; empty exactly when no source returned anything |
| RealTimeValidator.QualityChecksComplete | validation/real_time_validator.py:174-186 | every source that returned something is listed under its name with its quality score |
| RealTimeValidator.QualityChecksSound | validation/real_time_validator.py:174-186 | every entry is the name and score of a source that returned something |
| RealTimeValidator.ValidatePropagationQuality | validation/real_time_validator.py:154-214 | when no source returned anything (`propagation_data` empty, lines 169-171) the error line; otherwise the outcome of the per-source quality scores |
| RealTimeValidator.PropagationNeverPoor | validation/real_time_validator.py:188-212 | with a score, the observed quality is never 'Poor', and predicting the observed label scores 1 |
| IonosondeValidator.ValidStations | validation/ionosonde_validator.py:46-79 | the kept stations come from the feed, no more of them than records |
| IonosondeValidator.ValidStationsExact | validation/ionosonde_validator.py:49-79 | a station is kept exactly when its record has foF2 and MUF readings, a confidence of at least 50 and a parsable time no older than one hour |
| IonosondeValidator.ValidStationsConfident | validation/ionosonde_validator.py:51-79 | every kept station carries readings and a confidence of at least 50 |
| IonosondeValidator.FetchIonosondeData | validation/ionosonde_validator.py:35-85 | a failed request gives no stations; otherwise the filter loop computes the kept stations |
| IonosondeValidator.PercentError | validation/ionosonde_validator.py:126-130 | never negative; 0 for a non-positive measurement; 0 exactly for an exact match of a positive one |
| IonosondeValidator.CompareOne | validation/ionosonde_validator.py:122-147 | a comparison carries the station's measurements and both percent errors |
| IonosondeValidator.CompareStations | validation/ionosonde_validator.py:117-147 | one comparison and one pair of errors per station, in station order |
| IonosondeValidator.StatsOrdered | validation/ionosonde_validator.py:150-166 | minimum <= average <= maximum, all non-negative |
| IonosondeValidator.SummaryOrdered | validation/ionosonde_validator.py:150-166 | the ordering holds for both the foF2 and the MUF errors |
| IonosondeValidator.MFactorsOf | validation/ionosonde_validator.py:188-192 | only comparisons with a positive foF2 give a ratio |
| IonosondeValidator.ObservedMFactors | validation/ionosonde_validator.py:188-192 | the collecting loop computes the observed ratios |
| IonosondeValidator.AnalysisOf | validation/ionosonde_validator.py:172-206 | nothing exactly for no comparisons; the default M-factor 3.0 when none is observed; the current coefficient and no adjustment when the SFI root is not positive |
| IonosondeValidator.AnalyzeFormulaAccuracy | validation/ionosonde_validator.py:172-206 | the analysis uses the M-factors the loop collects |
| IonosondeValidator.MatchingFormulaNeedsNoAdjustment | validation/ionosonde_validator.py:180-197 | stations measuring exactly the formula's foF2 need no coefficient change |
| IonosondeValidator.ProportionalMFactors | validation/ionosonde_validator.py:188-192 | stations whose MUF is k times their positive foF2 each give ratio k |
| IonosondeValidator.ObservedMFactorIsRatio | validation/ionosonde_validator.py:188-194 | then the observed average M-factor is k |
| IonosondeValidator.ValidateMufFormula | validation/ionosonde_validator.py:87-170 | no stations exactly gives the "No ionosonde data available" failure; with stations, a negative SFI exactly gives the `math.sqrt` domain error; otherwise one comparison per station and its summary |
| IonosondeValidator.InterpretationOf | validation/ionosonde_validator.py:280-288 | accurate exactly below 20% average error, moderate exactly in [20, 40), needing improvement from 40 |
| IonosondeValidator.ReportOf | validation/ionosonde_validator.py:214-292 | a failed validation gives the failure line, a domain error stays raised; otherwise at most 15 station rows and the interpretation of the average MUF error |
| IonosondeValidator.ReportAccountsForAllStations | validation/ionosonde_validator.py:265-272 | every station is shown or counted in the "more" line, exactly once |
| IonosondeValidator.RunValidationReport | validation/ionosonde_validator.py:208-292 | no stations gives the failure line; with stations, a negative SFI gives the domain error; otherwise at most 15 rows, each the comparison of its station, a "more" count exactly when there are more than 15 stations, the error summary over all stations, and the interpretation of its average MUF error |
| SpotsData.PskSpot | data_sources/spots_data.py:106-124 | a report gives a spot exactly when its frequency parses and its SNR is absent or parses; the frequency in MHz is the Hz reading over 10⁶ |
| SpotsData.PskSpots | data_sources/spots_data.py:105-121 | only accepted spots (a callsign and a positive frequency), all from PSKReporter, none beyond the reports |
| SpotsData.ParsePskReports | data_sources/spots_data.py:103-124 | the loop reads at most the first 100 reports and keeps the accepted spots |
| SpotsData.WsprSpots | data_sources/spots_data.py:190-220 | only accepted WSPR spots are kept |
| SpotsData.SpotBandsAscending | data_sources/spots_data.py:292-304 | the eleven band ranges are well formed and ascending, so they do not overlap |
| SpotsData.ActivityIn | data_sources/spots_data.py:307-317 | the band's count is the number of spots in its range; an empty band reads 0, 0 and no mode |
| SpotsData.AnalyzeBandActivity | data_sources/spots_data.py:289-319 | exactly the eleven bands, in order, each with its own range's activity |
| SpotsData.HitsAtMostOne | data_sources/spots_data.py:292-308 | a frequency falls in at most one band range |
| SpotsData.CountsOverAtMostSpots | data_sources/spots_data.py:307-308 | over disjoint ranges the counts add up to at most the number of spots |
| SpotsData.TotalIsCountsOver | data_sources/spots_data.py:307-317 | the band entries' counts add up to the spots' range hits |
| SpotsData.BandCountsAtMostSpots | data_sources/spots_data.py:289-319 | no spot is counted in two bands: the counts sum to at most the number of spots |
| SpotsData.AllSpotsLength | data_sources/spots_data.py:244-247 | the collected spots number the sum of the sources' list lengths |
| SpotsData.ModeCount | data_sources/spots_data.py:254-256 | a mode's count is positive exactly for a mode present |
| SpotsData.Bump | data_sources/spots_data.py:256 | one increment adds the mode with its count raised by one and leaves other modes alone |
| SpotsData.ModeTallyStep | data_sources/spots_data.py:254-256 | one more spot keeps the tally exact |
| SpotsData.DxccStep | data_sources/spots_data.py:260-263 | one more spot adds its DXCC entity exactly when it is non-empty |
| SpotsData.ActiveBands | data_sources/spots_data.py:266 | at most one per band |
| SpotsData.ListedSpots | data_sources/spots_data.py:282 | at most 100 spots are listed |
| SpotsData.ListedSpotsOrdered | data_sources/spots_data.py:282 | the listed spots come from the input, highest frequency first, and no spot left out has a higher frequency than the last one listed |
| SpotsData.ListedSpotsTop | data_sources/spots_data.py:282 | the listed spots are the 100 highest: no spot left out has a higher frequency than the last one listed |
| SpotsData.ListedSpotsStable | data_sources/spots_data.py:282 | spots of equal frequency are listed in the order the sources gave them |
| SpotsData.CollectSpots | data_sources/spots_data.py:244-247 | the first loop concatenates the sources' spots |
| SpotsData.TallyModes | data_sources/spots_data.py:253-256 | the mode loop gives every mode seen with its number of spots |
| SpotsData.CollectDxcc | data_sources/spots_data.py:259-263 | the DXCC loop collects exactly the non-empty entities |
| SpotsData.CombineSpotsData | data_sources/spots_data.py:241-287 | the total, band activity, modes, DXCC count and listing follow from all the spots; confidence 0.8 from two sources, else 0.6 |
| SpotsData.FallbackActivity | data_sources/spots_data.py:321-337 | no spots, confidence 0.3, source "fallback" |
| SpotsData.GetLiveActivity | data_sources/spots_data.py:33-51 | a cache hit is returned unchanged; otherwise the fetched result (stored) or the fallback |
| SpotsData.LiveActivityCached | data_sources/spots_data.py:37-45 | a result stored by a miss is served by the next call within its lifetime |
| ContestData.GetText | data_sources/contest_data.py:104-106 | the stripped text, or '' for a missing child or empty text |
| ContestData.DetectMode | data_sources/contest_data.py:173-184 | CW, then phone, then RTTY, then digital keywords decide in priority order; otherwise 'Mixed' |
| ContestData.DetectModeIgnoresCase | data_sources/contest_data.py:175 | detection ignores case |
| ContestData.DaysInMonth | data_sources/contest_data.py:142-171 | the Gregorian month length, 29 in February exactly in leap years |
| ContestData.NextDay | data_sources/contest_data.py:160-162 | a valid date one day later at the same time of day |
| ContestData.NextDaySeconds | data_sources/contest_data.py:160-162 | one day later is 86400 seconds later |
| ContestData.MonthNumber | data_sources/contest_data.py:17-22 | a known month name maps to a month 1 to 12 |
| ContestData.EndTime | data_sources/contest_data.py:152-162 | a valid end time; 24xx is midnight of the next day |
| ContestData.BuildDatetimes | data_sources/contest_data.py:142-171 | an unknown month gives no times; otherwise valid times with the end not before the start, the end moved a year on when needed |
| ContestData.MidnightEnd | data_sources/contest_data.py:157-165 | a 2400 end is midnight at the start of the day after the given one, moved on a year only when that falls before the start |
| ContestData.Countdown | data_sources/contest_data.py:197-212 | whole days and the hours left, or hours for less than a day |
| ContestData.RemainingTime | data_sources/contest_data.py:192-195 | the remaining time in whole hours and minutes |
| ContestData.DetermineStatus | data_sources/contest_data.py:186-214 | with both times, active exactly from start to end, upcoming exactly before the start, past otherwise; without an end, upcoming |
| ContestData.PastMeansEnded | data_sources/contest_data.py:186-205 | 'past' means the end has passed and the start is not still ahead |
| ContestData.IsoFormat | data_sources/contest_data.py:88-89 | the 19-character ISO text of a time |
| ContestData.IsoBefore9999 | data_sources/contest_data.py:95 | the ISO text of any year before 9000 sorts before the '9999' placeholder |
| ContestData.ContestOf | data_sources/contest_data.py:69-90 | an untitled item is skipped; otherwise named by its title with the detected mode |
| ContestData.ContestsOf | data_sources/contest_data.py:69-90 | every kept contest has a name |
| ContestData.ContestsOfStep | data_sources/contest_data.py:69-90 | one more item appends its contest exactly when it has a title |
| ContestData.CalendarOrderIsStrictWeakOrder | data_sources/contest_data.py:93-96 | the sort key order is a strict weak order |
| ContestData.FetchContests | data_sources/contest_data.py:56-98 | every titled item becomes a contest and the list is sorted by the key |
| ContestData.CalendarSorted | data_sources/contest_data.py:93-96 | active contests come first, and start keys never decrease within each group |
| ContestData.MissingStartLast | data_sources/contest_data.py:95 | a contest without a start sorts after any with a start before 9000 |
| ContestData.CountsAtMostTotal | data_sources/contest_data.py:39-40 | the active, upcoming and past counts add up to the total |
| ContestData.CountSort | data_sources/contest_data.py:93-96 | sorting does not change the counts |
| ContestData.FallbackContests | data_sources/contest_data.py:216-223 | no contests, both counts 0 |
| ContestData.ReportOf | data_sources/contest_data.py:39-47 | at most the first ten contests, with counts over all of them |
| ContestData.GetContests | data_sources/contest_data.py:30-54 | a cache hit is returned unchanged; otherwise the report of the feed, which a registered "contests" cache then returns for the next 30 minutes |
| ContestData.ReportCountsFeedOrder | data_sources/contest_data.py:39-47 | the counts are those of the feed, whatever the order |
| Alerts.AlertType | utils/alerts.py:16-22 | every rule's alert type is a key of the alert-type table |
| Alerts.ParseFloatValue | utils/alerts.py:134-141 | a number passes through; other values parse their first whitespace-separated word, the default standing in when there is none or it does not parse |
| Alerts.SfiValue | utils/alerts.py:32-33 | a numeric flux passes through |
| Alerts.KIndexDefaults | utils/alerts.py:31 | a missing K index reads 2; a `None` one renders as "None", fails to parse and reads 0 |
| Alerts.FlareReadingOf | utils/alerts.py:36-61 | a flare entry is a class exactly when it is non-empty text other than "None", and ends the evaluation exactly when it is a non-zero number (0 is falsy and skips the flare rule) |
| Alerts.StormAlerts | utils/alerts.py:38-57 | a storm alert exactly from K 5, critical exactly from K 7; an unsettled alert exactly for 4 <= K < 5 |
| Alerts.FlareAlerts | utils/alerts.py:59-71 | a flare alert exactly for an M or X class (any case), critical exactly for X |
| Alerts.BandAlerts | utils/alerts.py:73-91 | the 10 m alert exactly above 28 MHz, the 15 m alert exactly in (21, 28], none for a missing or zero MUF |
| Alerts.GreylineAlerts | utils/alerts.py:93-116 | the morning alert exactly at dawn or early morning, the evening one exactly at evening or early night, both only with K at most 3 |
| Alerts.ExcellentLast | utils/alerts.py:118-127 | 'Excellent Conditions' exactly when K <= 1, SFI >= 100 and no earlier rule fired |
| Alerts.EvaluationHolds | utils/alerts.py:24-132 | the composed rules give every rule's promise at once |
| Alerts.EvaluateRules | utils/alerts.py:38-127 | the appending evaluation computes the rules' alerts in order |
| Alerts.EvaluateConditions | utils/alerts.py:24-132 | every alert has a listed type, alerts appear in rule order and each rule fires exactly under its condition; a non-zero numeric flare entry raises and ends the evaluation after rule 1, while 0 is skipped like a missing entry |
| Geocoding.Trunc | utils/geocoding.py:225-234 | `int()` truncates toward zero |
| Geocoding.PyMod | utils/geocoding.py:229-234 | Python's float `%` with a positive modulus lies in [0, d) |
| Geocoding.Chr | utils/geocoding.py:236-238 | `chr` gives the character with that code wherever it does not raise |
| Geocoding.LatLonToGrid | utils/geocoding.py:218-240 | in range, six characters: two field letters A-R, two digits and two subsquare letters a-x |
| Geocoding.GridToLatLon | utils/geocoding.py:243-267 | no point exactly for fewer than four characters or a non-digit square character |
| Geocoding.Canonical | utils/geocoding.py:236-238 | the form `latlon_to_grid` writes is a six-character subsquare locator |
| Geocoding.RoundTrip | utils/geocoding.py:218-267 | a valid locator decodes to an in-range point that encodes back to the same cell, with a lower-case subsquare |
| Geocoding.Subsquares | utils/geocoding.py:257-263 | the decoded centre lies inside the locator's own subsquare, the middle one for four characters |
| Geocoding.Encode | utils/geocoding.py:221-238 | a point given by field, square and offset encodes to exactly those letters and digits |
| Geocoding.GridContainsPoint | utils/geocoding.py:218-267 | encoding and decoding moves an in-range point by at most half a subsquare |
| Geocoding.LonCell | utils/geocoding.py:225-233 | the longitude arithmetic recovers the field, the square and the offset |
| Geocoding.LatCell | utils/geocoding.py:226-234 | the latitude arithmetic recovers the field, the square and the offset |
| Geocoding.CommonZipsInRange | utils/geocoding.py:17-28 | every common ZIP code lies at a valid coordinate |
| Geocoding.RegionsDisjoint | utils/geocoding.py:120-165 | the prefix ranges of the region table do not overlap |
| Geocoding.RegionsInRange | utils/geocoding.py:120-165 | every region centre is a valid coordinate |
| Geocoding.FindRegion | utils/geocoding.py:167-168 | a region is found exactly when one holds the prefix, and the one found holds it |
| Geocoding.FindRegionUnique | utils/geocoding.py:167-178 | with disjoint ranges every prefix finds its own region |
| Geocoding.DefaultLocation | utils/geocoding.py:180-190 | the US geographic centre in Kansas on Central time, source 'default' |
| Geocoding.EstimateFromZipPrefix | utils/geocoding.py:114-190 | 'default' exactly when no region holds the prefix; the locator is that of the coordinates |
| Geocoding.EstimateInRegion | utils/geocoding.py:167-178 | a prefix inside a region gets that region's centre, state and zone, the city "<name> Area" and source 'estimated' |
| Geocoding.FetchedLocation | utils/geocoding.py:70-111 | no answer gives no location; an in-range answer gives its place, 'Unknown' and 'XX' for missing names, the state's zone and source 'zippopotamus' |
| Geocoding.ZipPrefix | utils/geocoding.py:41 | the first five characters after stripping |
| Geocoding.ZipToCoordinates | utils/geocoding.py:31-67 | nothing exactly for a code that is not five digits; otherwise the common table, then the lookup answer, then the estimate |
| Geocoding.ZipLocatorCoversPoint | utils/geocoding.py:31-67 | whatever the source, the locator names the square holding the coordinates |
| Geocoding.StateToTimezone | utils/geocoding.py:193-215 | Arizona is on Phoenix time and any unknown state on New York time |
| Geocoding.MountainStates | utils/geocoding.py:199-207 | the mountain states other than Arizona are on Denver time |
| HamRadioConditions.CountsMonotone | ham_radio_conditions.py:227-270 | a higher flux reaches and passes at least as many thresholds |
| HamRadioConditions.PhaseOf | ham_radio_conditions.py:226-256 | the phase rank is the number of thresholds 60, 80, 100, 120, 150 the flux reaches; Solar Maximum exactly from 150, Deep Solar Minimum exactly below 60 |
| HamRadioConditions.TrendOf | ham_radio_conditions.py:258-270 | the trend rank is the number of thresholds 80, 100, 120 the flux strictly passes; Strongly Rising exactly above 120, Low exactly at 80 or below |
| HamRadioConditions.PhaseAndTrendMonotone | ham_radio_conditions.py:226-270 | a higher flux never gives a lower phase or trend |
| HamRadioConditions.TrendTrailsPhase | ham_radio_conditions.py:226-270 | the non-strict phase and strict trend comparisons put the trend one or two steps below the phase from 60 on, and Low below 60 |
| HamRadioConditions.Sfi120 | ham_radio_conditions.py:232-263 | a flux of exactly 120 is a Rising Solar Maximum with a Rising trend |
| HamRadioConditions.PhaseNamesDistinct | ham_radio_conditions.py:227-256 | no two phases share a name |
| HamRadioConditions.SolarCycleInfo | ham_radio_conditions.py:218-290 | Unknown exactly when the flux text does not parse; otherwise the flux read, the sunspots or "N/A", and the phase and trend of the flux |
| HamRadioConditions.WholeSfi | ham_radio_conditions.py:222-223 | a whole-number flux, with or without the " SFI" unit, is read as that number |
| HamRadioConditions.MissingSfi | ham_radio_conditions.py:222-267 | a missing flux reads 100: Rising Phase with a Stable trend |
| HamRadioConditions.Serialize | ham_radio_conditions.py:371-386 | the result holds no NaN or infinity; NaN and infinities become "N/A"; ints, strings, booleans and None pass through; other objects become text; dictionary keys and list lengths are kept |
| HamRadioConditions.SerializeSafe | ham_radio_conditions.py:371-386 | a value already free of NaN and infinity comes back unchanged |
| HamRadioConditions.SerializeIdempotent | ham_radio_conditions.py:371-386 | scrubbing twice is scrubbing once |
| HamRadioConditions.OverallConfidence | ham_radio_conditions.py:212-216 | the midpoint of the two confidences, each defaulting to 0.5 |
| HamRadioConditions.OverallConfidenceSymmetric | ham_radio_conditions.py:212-216 | the order of the two confidences does not matter |
| HamRadioConditions.MufConfidenceText | ham_radio_conditions.py:184-194 | a percentage exactly from 0.7 (default 0.5), otherwise 'Low (Estimated)' |
| HamRadioConditions.Checks | ham_radio_conditions.py:399-413 | a run of calls records checks only at call times |
| HamRadioConditions.ChecksSpaced | ham_radio_conditions.py:404-410 | unforced calls record checks at least one interval apart |
| HamRadioConditions.Conditions.constructor | ham_radio_conditions.py:38-102 | version 2.1.0, no check yet, an hourly interval, an idle update, and the callsign setting or N0CALL |
| HamRadioConditions.Conditions.VersionInformation | ham_radio_conditions.py:388-397 | the current version is the latest, no update is offered and the last check is reported |
| HamRadioConditions.Conditions.CheckForUpdates | ham_radio_conditions.py:399-417 | the check time is recorded exactly when forced, never checked, or an interval has passed; the version information is returned |
| HamRadioConditions.Conditions.InstallUpdate | ham_radio_conditions.py:428-435 | status 'installing' at progress 0, and the reply 'started' |
| HamRadioConditions.Conditions.GenerateReport | ham_radio_conditions.py:109-133 | a cache hit comes back with only its timestamp replaced; a miss builds the report from the sections and caches it for 600 seconds |
| ActivationsData.WithUtcSuffix | data_sources/activations_data.py:87-90 | an empty time stays empty; otherwise the result ends in 'Z' or carries a '+' offset; at most a 'Z' is appended |
| ActivationsData.WithUtcSuffixIdempotent | data_sources/activations_data.py:129-132 | marking a time as UTC twice is the same as marking it once |
| ActivationsData.WithUtcSuffixExact | data_sources/activations_data.py:89-90 | 'Z' is appended exactly when the time is non-empty, does not end in 'Z' and contains no '+' |
| ActivationsData.SotaReference | data_sources/activations_data.py:125-127 | "association/summit" when both codes are present, otherwise whichever one is present |
| ActivationsData.PotaActivation | data_sources/activations_data.py:86-100 | a POTA activation whose time is the UTC-marked spot time and whose name falls back to the location description only when the name key is missing |
| ActivationsData.SotaActivation | data_sources/activations_data.py:124-142 | a SOTA activation whose time is the UTC-marked timestamp and whose reference joins the association and summit codes |
| ActivationsData.Capped | data_sources/activations_data.py:86 | the first 50 items, or all of them when there are fewer |
| ActivationsData.GetPotaSpots | data_sources/activations_data.py:72-105 | no spots after an error or a non-list response; otherwise the first 50 items, each mapped in order |
| ActivationsData.GetSotaSpots | data_sources/activations_data.py:107-147 | no spots after an error or a non-list response; otherwise the first 50 items, each mapped in order |
| ActivationsData.LatestFirstIsStrictWeakOrder | data_sources/activations_data.py:50 | the reverse comparison of time texts used for the sort is a strict weak order |
| ActivationsData.FallbackActivations | data_sources/activations_data.py:149-157 | all counts zero and no activations |
| ActivationsData.CombineActivations | data_sources/activations_data.py:47-63 | the per-source counts, a total that is their sum, and at most 50 listed activations |
| ActivationsData.CombinedNewestFirst | data_sources/activations_data.py:49-57 | the listed activations are newest first, are drawn, with multiplicity, from the two source lists, and none left out is later than the last one listed |
| ActivationsData.CombinedTop | data_sources/activations_data.py:49-57 | the listing holds the 50 newest: no activation left out is later than the last one listed |
| ActivationsData.CombinedStable | data_sources/activations_data.py:49-57 | activations with the same time keep their merged order, POTA before SOTA |
| ActivationsData.GetCombinedActivations | data_sources/activations_data.py:25-70 | a cached listing is returned unchanged; otherwise the fallback on timeout, or the merge of what the two fetchers yield (counts of the capped lists, the newest 50), which a registered "activations" namespace then returns for three minutes |

## Left out

- Network I/O and response parsing are not modelled. This covers:
  - the `requests` and `urllib` calls;
  - the XML/HTML scraping of spot pages (data_sources/spots_data.py:84-239);
  - the contest RSS fetch;
  - the solar-data fetches;
  - the Zippopotam.us lookup;
  - the real-time data fetchers.

  What they return is a parameter, for example an `ApiResponse`, a parsed record list or an optional `Place`.
- Concurrency is not modelled: the cache cleanup thread, the re-entrant lock and every thread-pool fan-out.
  Each cache call is one atomic method call. Thread-pool timeouts are a `timedOut` flag.
- Clock reads (`time.time()`, `datetime.now()`, `datetime.utcnow()`) are explicit `now`, hour and month
  parameters. Wall-clock timestamps stored in reports are left out.
- Rounding to n decimals (`round`) and number formatting (`:.0f`, `:.0%`, `:.1f`) are dropped. Results are
  the exact values before rounding.
- Floats are exact reals, so overflow and rounding error are not modelled. NaN and infinities appear only
  in the JSON scrubbing, as explicit cases of the value datatype.
- The square root and the haversine distance are not computed. A caller passes a root with
  `IsRootOf(r, x)`, or a distance function.
- Python string handling is modelled only in part:
  - `str.strip` removes the ASCII and Latin-1 white space characters, not all of Unicode's;
  - `upper`/`lower` use ASCII letters only;
  - `isdigit` means ASCII digits.
- Python's `float()` is modelled only on plain decimal text (an optional sign, digits, an optional fraction).
  Exponents, `nan`, `inf` and underscores are read as unparsable.
- Entry sizes come from `json.dumps` length in the source. Here the size is a given natural number.
- Logging is not modelled anywhere.
- The trig functions in data_sources/geomagnetic_data.py are not modelled.
- validation/statistical_analyzer.py is not part of this model; it is wrappers over scipy/numpy.
- The simulated random history in validation/historical_validator.py:263-332 is not modelled; it is nondeterministic.
- These files are not part of this model:
  - database.py, qrz_data.py, weather_data.py and dxcc_data.py;
  - the Flask routes and application factory;
  - config and logging setup;
  - the scripts and tests.
- The regular-expression matching in `_parse_contest_times` is not modelled. `_build_datetimes` starts from
  the extracted fields.
- AccuracyTracker.AccuracyMetrics does not model the `individual_metrics` dictionaries: the per-type error text and
  the component scores. It also leaves out the history entries' `metrics` field, which copies them. Only
  the overall accuracy and the error list are modelled.
- AccuracyTracker.SummaryOf carries `std_accuracy` as its square, `varianceAccuracy` (the population
  variance), because the square root is not computed.
- HamRadioConditions.Conditions.GenerateReport does not model two things:
  - an exception in a section provider, which makes `generate_report` return None;
  - the timestamp written into the cached dictionary. The source updates that dictionary in place, which
    also changes the stored entry; the model returns a copy with the new timestamp.

  It also treats every cached report as a hit. The source treats an empty dict as a miss, but the report
  it caches is never empty.
- HamRadioConditions.Serialize models dictionary keys as strings. Python dicts with non-string keys are not modelled.
- PredictionValidator.ValidatePrediction does not model these:
  - storing the report in the cache (`_store_validation_report`);
  - `get_validation_summary`;
  - `_generate_system_recommendations`;
  - the `record_prediction` call.

  The real-time confidence `_perform_real_time_validation` yields is a supplied score.
- HistoricalValidator.BandsAgainstHistory keeps the frequency scores as a list, one per predicted band.
  The source zips them into a dict, so a repeated predicted band keeps only its last score there. The
  overall mean is taken over the list, as in the source.
- HistoricalValidator does not build the text of `_explain_anomaly`. The seasonal, time-of-day and
  solar-condition checks are placeholders that always pass in the source, and are modelled as such.
- IonosondeValidator.RunValidationReport models the structure of the report (station lines, the
  "... and N more" line, the interpretation) but not its formatted text. The command-line `main` is left out.
- SpotsData does not model `check_status`. The PSKReporter conversion is modelled from already-parsed reports.
- CrossValidator models no timestamps and no free-form `details` dictionaries.
- CrossValidator.TraditionalMuf and CrossValidator.MufValues are defined for a non-negative SFI only.
  Python's `sfi ** 0.5` gives a complex number for a negative SFI, and complex numbers are not modelled.
- CrossValidator.CrossValidate does not model a negative SFI for "muf": the source then computes
  complex-valued consistency scores, an overall consistency and an agreement level from them, and reports
  no error. For that case the model promises only the type, the three method names and the absence of an
  error; its scores, level and recommendations are placeholders.
- ContestData.DetermineStatus and ContestData.RemainingTime work on whole seconds. The source's
  `datetime.now()` carries microseconds, so within one second of a start or end time the status, and the
  minutes left, can differ from the model's.
- IonosondeValidator.ValidStations and MufCalculator.Qualifies keep the feed's times and `now` on one clock.
  The source drops the zone of the feed's UTC time and compares it with the local `datetime.now()`
  (calculations/muf_calculator.py:130, 148, 160-163; validation/ionosonde_validator.py:47, 63). On a host
  whose local zone is not UTC, that cutoff is shifted by the zone offset; the model does not capture this.

## Findings

| source | as written | input that shows it | evidently intended | confidence | as-written member | corrected member |
|---|---|---|---|---|---|---|
| utils/cache_manager.py:322-355 | `get_cache_manager` registers only the namespaces default, conditions, spots and weather. `set` on any other namespace is refused (utils/cache_manager.py:129-131), so the "predictions", "contests", "activations", "historical_validation", "validation_reports" and "accuracy_history" writes of the other modules never store anything. `record_actual_result` (validation/accuracy_tracker.py:44-56) therefore always reports "Prediction not found" | `cache_set('predictions', id, record)` followed by `cache_get('predictions', id)` on the shared manager | every namespace the application writes is registered, so a stored prediction can be read back and validated | not executed | CacheManagement.WriteUnregistered | CacheManagement.WriteRegistered |
