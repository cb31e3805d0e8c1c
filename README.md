# Frame-rate matching: a verified model of the analysis core

The frame-rate-matching study samples each video of a corpus at several
frame rates (FPS), measures scene, character, visual, atmosphere, action and
temporal signals at each rate, and asks how high a rate each signal needs
before more frames stop adding information. This project models the
analytic engine behind that question in Dafny:

- the record normaliser (`Normaliser`, over the raw JSON values of `Json`),
  which flattens one measurement file into one record, rejects files without
  a tier or a dataset, and counts records against skips;
- the per-(tier, fps) group means and the per-video stability table
  (`Aggregates`, over the corpus of `Frames`);
- the two order-sensitive scans that several stages share (`Scans`):
  the first point whose relative change is below 5%, and the first point that
  reaches a target;
- the 90% and diminishing-returns FPS thresholds and the publication
  summary (`Thresholds`);
- the ANOVA effect sizes (eta-squared over the between/within split of the
  sums of squares, with their bands) and the pairwise Cohen's d
  (`EffectSizes`, arithmetic from `Stats`);
- the two versions of the audio-description (AD) tier mapping: the first,
  range-referenced version (`CompleteGaps`) and the revised,
  plateau-referenced version (`FixGaps`). Both share the level scan, the
  error-propagating folds and the comparison grid of `TierScan`;
- the comparison of the validation set against the core study, raw
  (`CompleteGaps`) and normalised by duration (`FixGaps`).

Loops of the source are methods with loop invariants. Each method's
`ensures` ties its result to a specification function. The properties the
scripts promise are proved about those functions as lemmas.

Interfaces to the outside world:

- Files reach the model already decoded, as `Normaliser.Input`: a JSON
  value or a read failure.
- numpy's square root is a parameter `sqrt: real -> real`, constrained only
  to be non-negative on non-negative arguments.
- Python exceptions that the scripts do not catch are `Err` values of a
  `Result`.

## Model

| member | source | states |
|---|---|---|
| Normaliser.SectionOf | code/process_results.py:38-44 | A signal section reads as its object, and as `{}` when it is absent, null or falsy. A truthy non-object section is the AttributeError case, and only that case. |
| Normaliser.MetricValue | code/process_results.py:64-93 | `section.get(k, 0) or 0`: 0 when the key is absent or its value is falsy, otherwise the stored value. |
| Normaliser.SafeMean | code/process_results.py:26-33 | 0.0 for an empty or falsy argument. A number is its own mean, and a boolean counts as 1 or 0. For a non-empty list of numbers and booleans (booleans as 1 and 0), the arithmetic mean, which lies between the list's least and greatest value. A flat list that holds a null, a string or an object, or a lone string or object, makes numpy raise and gives 0.0. |
| Normaliser.DominantColors | code/process_results.py:84 | The length of the colour list. 0 when the list is absent or null. A number or a boolean is the TypeError that `len` raises. |
| Normaliser.ExtractMetrics | code/process_results.py:35-94 | None exactly when the metadata section is an object or falsy, and `metadata.tier` or `metadata.dataset` is missing or falsy, whatever the six signal sections hold. A metadata section that is truthy but not an object raises at once. A signal section of that kind raises only after the tier/dataset test has passed. Conversely, when the metadata is readable, tier and dataset are truthy, every signal section is readable and the colour list has a length, a record is extracted. An extracted record has every section readable, copies `video_id` and `fps` (null when absent), and `frame_count` and `duration` (0 when absent). It carries the tier and the dataset, both truthy, and has every metric column. |
| Normaliser.PlainMetricOfRecord | code/process_results.py:38-44 | Every plain metric of a record is the value looked up, with the 0 defaults, in the section that metric belongs to. |
| Normaliser.MissingMetricReadsZero | code/process_results.py:38-44 | A missing or null section, or a missing or null metric in it, gives the metric 0. |
| Normaliser.PresentMetricCopied | code/process_results.py:64-93 | A truthy metric value in its section is copied into the record unchanged. |
| Normaliser.MetricsAreNumbers | code/process_results.py:64-93 | When every metric leaf is a number, null or absent, every metric cell of the record is a number: no null reaches the record. |
| Normaliser.MetadataDefaults | code/process_results.py:60-61 | `study_type` defaults to 'core', and a stored study type is copied. `source_fps` defaults to 0. |
| Normaliser.DominantColorsIsCount | code/process_results.py:84 | The `dominant_colors` column holds the length of the colour list, and 0 when the list is absent or null. |
| Normaliser.RecordsPlusSkips | code/process_results.py:104-118 | Every file gives exactly one record or one skip: records + skips = files. |
| Normaliser.KeptRecordsIdentified | code/process_results.py:111-112 | Every kept record carries a truthy tier and a truthy dataset. |
| Normaliser.ProcessAllResults | code/process_results.py:96-121 | The loop returns the records of the extracted files, in file order, and the number of files that failed or were rejected. Records + skipped = files. |
| Frames.Where | code/statistical_analysis.py:123 | A boolean mask keeps exactly the rows that match, and no more rows than it is given. |
| Frames.WhereOne | code/statistical_analysis.py:123 | A single row is kept exactly when it matches the mask. |
| Frames.WhereAppend | code/statistical_analysis.py:123 | Masking distributes over concatenation. With `WhereOne`, this fixes the kept rows in their original order and with their multiplicity. |
| Frames.Distinct | code/process_results.py:155 | `unique()`: no duplicates, and the same members as the input. |
| Frames.SortedDistinct | code/statistical_analysis.py:118 | `sorted(df['fps'].unique())`: strictly increasing, with the same members as the input. |
| Frames.Curve | code/statistical_analysis.py:232 | `groupby('fps')[m].mean().sort_index()`: strictly ascending in fps. Exactly the sampled rates appear, one point per rate. Each mean is the mean of that rate's group. |
| Frames.MeanAtPoint | code/fix_gaps.py:76 | `fps_means.get(fps, 0)` of a sampled rate is that rate's mean. |
| Frames.MeanAtMissing | code/fix_gaps.py:76 | `fps_means.get(fps, 0)` of a rate the curve lacks is 0. |
| Aggregates.GroupKeys | code/process_results.py:138 | The (tier, fps) keys of the corpus, each exactly once. |
| Aggregates.AggregateRowsDescribeGroups | code/process_results.py:126-141 | One row per distinct (tier, fps), and a row for every record's key. `video_count` is the size of the group, and each aggregated column is its mean. |
| Aggregates.AggregateMeansBounded | code/process_results.py:126-141 | Each aggregate mean lies between the least and the greatest value of its group. |
| Aggregates.VideoCountsSumToCorpus | code/process_results.py:135-139 | The `video_count` column sums to the number of records. |
| Aggregates.SortByFps | code/process_results.py:159 | `sort_values('fps')`: ordered by fps, and a permutation of the video's rows. |
| Aggregates.Cv | code/process_results.py:168-172 | The coefficient of variation is never negative, and is 0 when the mean is not positive. |
| Aggregates.MetricRowFacts | code/process_results.py:164-191 | A stability row names its tier, video and metric. Its cv is at least 0. min_value and max_value bracket every value, so min ≤ max. stable_fps is one of the video's sampled rates. |
| Aggregates.VideoRowCount | code/process_results.py:158-164 | A video with fewer than 2 records gives no rows. Otherwise it gives exactly one row per metric. |
| Aggregates.StabilityTableWellFormed | code/process_results.py:155-191 | Every stability row is well formed (cv ≥ 0, min ≤ max, one of the five metrics) and belongs to a tier of the corpus. |
| Aggregates.VideoStability | code/process_results.py:164-191 | The per-metric loop of one video builds exactly that video's rows. |
| Aggregates.ComputeSignalStability | code/process_results.py:143-193 | The nested tier and video loops build exactly the stability table, tiers and videos in first-appearance order. |
| Scans.SteadyIsRelativeChange | code/process_results.py:177-179 | With prev > 0, the division-free test agrees with `abs(curr - prev) / prev < 0.05`. |
| Scans.FirstSteadyFrom | code/statistical_analysis.py:258-266 | The first index at which the step from the previous point is steady. No earlier index is steady, and when none is found no index is. |
| Scans.ScanStable | code/process_results.py:175-181 | The break-scan returns the rate of the first steady index, and the highest rate when there is none. |
| Scans.StableFpsAboveLowest | code/statistical_analysis.py:255-266 | With at least two strictly increasing rates, the reported rate is never the lowest. |
| Scans.FirstAtLeastFrom | code/statistical_analysis.py:245-250 | The first index whose value reaches the target. Every earlier value falls short, and when none is found no value reaches it. |
| Scans.ScanAtLeast | code/statistical_analysis.py:245-250 | The for/else scan returns the first reaching index, or none. |
| Scans.FirstAtLeastMonotone | code/fix_gaps.py:75-78 | Lowering the target never moves the first reaching index later. |
| Thresholds.Target90 | code/statistical_analysis.py:242 | `min + 0.9 (max - min)` lies between min and max. |
| Thresholds.Fps90FirstReaching | code/statistical_analysis.py:238-250 | On a non-constant curve, optimal_fps_90 is the rate of a point that reaches the 90% target, every lower rate falls short, and the fallback at lines 249-250 is never taken. |
| Thresholds.Fps90Constant | code/statistical_analysis.py:251-252 | On a constant curve, optimal_fps_90 is the lowest sampled rate. |
| Thresholds.Fps90Sampled | code/statistical_analysis.py:238-252 | optimal_fps_90 is always a sampled rate, between the lowest and the highest. |
| Thresholds.DiminishingAboveLowest | code/statistical_analysis.py:255-266 | optimal_fps_diminishing of a curve with at least 2 points is above its lowest rate. |
| Thresholds.ThresholdRange | code/statistical_analysis.py:238-275 | min_value ≤ max_value, range = max − min ≥ 0, and every mean of the curve lies in [min, max]. |
| Thresholds.ThresholdTableDescribed | code/statistical_analysis.py:227-276 | Every threshold row comes from a corpus tier and one of the five metrics. Its curve has at least 2 rates, the row is that curve's thresholds, and its diminishing rate is above the curve's lowest rate. |
| Thresholds.CurveThresholds | code/statistical_analysis.py:238-266 | The two scans of one curve give exactly its threshold row. |
| Thresholds.AnalyzeFpsThresholds | code/statistical_analysis.py:219-276 | The tier and metric loops append exactly the threshold table, and skip curves under two rates. |
| Thresholds.ExampleScans | code/statistical_analysis.py:242-266 | On means [2, 8, 9, 9.2], the 90% scan stops at index 2 and the diminishing scan at index 3. |
| Thresholds.ExampleCurve | code/statistical_analysis.py:238-266 | Over rates 1, 10, 24 and 60 with those means, the thresholds are 24 and 60. |
| Thresholds.PyMax | code/statistical_analysis.py:411 | `max(a, b)` is at least both and is one of them. |
| Thresholds.ColumnMean | code/statistical_analysis.py:398-399 | The mean of a tier's threshold column is missing (NaN) exactly when the column is empty. Otherwise it lies between the column's extremes. |
| Thresholds.SummaryFacts | code/statistical_analysis.py:395-412 | Videos ≤ records. The averages and the recommendation are missing exactly when the tier has no threshold rows. Otherwise the recommended FPS is the larger of the two averages. |
| Thresholds.SummaryRows | code/statistical_analysis.py:394-412 | One summary row per tier, in the given order, each the summary of its own tier. |
| Thresholds.SummaryOverDescribed | code/statistical_analysis.py:394-412 | The summary raises KeyError exactly when the threshold table is empty, because a frame built from no rows has no `tier` column. Otherwise it has one row per tier, in order, each naming its tier and holding that tier's summary. |
| Thresholds.GenerateSummaryTable | code/statistical_analysis.py:389-414 | The summary loop gives that outcome for the three content tiers in the fixed order: the KeyError for an empty threshold table, else the three rows. |
| Stats.MeanBetween | code/statistical_analysis.py:138 | A mean lies between the least and the greatest element. |
| Stats.SqDevAroundMean | code/statistical_analysis.py:139-140 | Moving the centre from the mean to c adds n (mean − c)² to the squared deviations. |
| Stats.Variance | code/process_results.py:170 | The population variance under `np.std` is never negative. |
| EffectSizes.TotalSumOfSquaresSplits | code/statistical_analysis.py:137-140 | ss_total over the concatenated groups equals the within-group sum plus ss_between, for any centre. |
| EffectSizes.EtaSquared | code/statistical_analysis.py:137-141 | eta_squared lies in [0, 1], and is 0 when ss_total is 0. |
| EffectSizes.Band | code/statistical_analysis.py:150 | 'large' exactly when eta > 0.14, 'small' exactly when eta ≤ 0.06, and 'medium' between. |
| EffectSizes.BandMonotone | code/statistical_analysis.py:150 | A larger eta never gets a smaller label. |
| EffectSizes.NonEmptyGroups | code/statistical_analysis.py:130 | The filter keeps exactly the non-empty groups, and no more groups than it is given. |
| EffectSizes.NonEmptyGroupsAppend | code/statistical_analysis.py:130 | A single group is kept exactly when it is non-empty, and the filter distributes over concatenation. Together these fix the kept groups in order and with their multiplicity. |
| EffectSizes.AnovaTableDescribed | code/statistical_analysis.py:118-151 | Every ANOVA row is at a sampled rate, for one of the six metrics, with at least two non-empty tier groups. Its eta is in [0, 1] and its band is Band(eta). |
| EffectSizes.RunAnovaTests | code/statistical_analysis.py:112-155 | The rate and metric loops build exactly the ANOVA table. |
| EffectSizes.PooledVariance | code/statistical_analysis.py:199 | The pooled variance of two groups of more than one value is never negative. |
| EffectSizes.CohensDGuard | code/statistical_analysis.py:199-200 | cohens_d is 0 when pooled_std is not positive, and in particular when the pooled variance is 0. Otherwise its sign is the sign of mean(g1) − mean(g2). |
| EffectSizes.PairwiseTableDescribed | code/statistical_analysis.py:183-211 | Every pairwise row is at a key rate, for one of the four metrics and one of the three tier pairs. Both groups have more than one value, mean_diff = mean(g1) − mean(g2), and the row carries that pair's Cohen's d. |
| EffectSizes.RunPairwiseComparisons | code/statistical_analysis.py:176-213 | The rate, metric and pair loops build exactly the pairwise table. |
| TierScan.ScanLevels | code/fix_gaps.py:75-80 | The scan over the global levels returns the first level whose tier mean (0 where absent) reaches the target. |
| TierScan.ReachedBySampledPoint | code/fix_gaps.py:75-78 | A sampled point that reaches the target bounds the first reaching level from above. |
| TierScan.FirstReachingMonotone | code/complete_gaps.py:87-90 | A lower target is reached no later. |
| TierScan.PresentSignals | code/fix_gaps.py:58-60 | Exactly the configured signals that are columns, and no more signals than are configured. |
| TierScan.PresentSignalsAppend | code/fix_gaps.py:58-60 | A single signal is kept exactly when it is a column, and the filter distributes over concatenation. Together these fix the kept signals in their configured order and with their multiplicity. |
| TierScan.MaxOr | code/fix_gaps.py:83 | `max(xs) if xs else default`: at least every member and one of them, or the default. |
| TierScan.PctDiffInverse | code/fix_gaps.py:229 | pct_diff recovers the validation mean from a non-zero core mean, and is 0 when the core mean is 0. |
| TierScan.PctDiffSign | code/complete_gaps.py:230 | Against a positive core mean, pct_diff is positive exactly when the validation mean is larger, and 0 exactly when they are equal. |
| TierScan.CurveRatesAreLevels | code/fix_gaps.py:51-63 | Every rate of a tier's curve is one of the corpus's sorted levels. |
| TierScan.AllOkShape | code/fix_gaps.py:54-90 | The content-tier loop fails exactly when one of its steps fails. Otherwise it returns one value per step, in order. |
| TierScan.ConcatShape | code/fix_gaps.py:53-90 | The AD-tier loop fails exactly when one AD tier fails. Otherwise its rows are all the AD tiers' rows, n per AD tier. |
| TierScan.GridMembers | code/complete_gaps.py:213-233 | A row is in the comparison exactly when it is in the cell of some key rate and some metric. |
| TierScan.GridSize | code/complete_gaps.py:213-233 | The comparison has at most (rates × metrics × rows per cell) rows. |
| FixGaps.PlateauIsSampled | code/fix_gaps.py:67 | The plateau rate is 60 exactly when the curve has 60. Otherwise it is the curve's highest rate. Either way it is sampled. |
| FixGaps.TargetBetweenMinAndPlateau | code/fix_gaps.py:68-72 | With t in [0, 1], min ≤ target ≤ the plateau value. |
| FixGaps.SignalFpsAtMostPlateau | code/fix_gaps.py:67-80 | Some level reaches the target, so the 60.0 fallback is never taken. The signal rate is a global level no higher than the plateau rate. |
| FixGaps.SignalFpsMonotone | code/fix_gaps.py:72-80 | A higher threshold never lowers a signal's rate. |
| FixGaps.Collected | code/fix_gaps.py:57-80 | `signal_fps` holds one rate per present signal, in configured order. |
| FixGaps.RequirementOutcome | code/fix_gaps.py:55-90 | A row fails (the IndexError of an empty content tier) exactly when some signal is a column and the content tier has no rows. A row carries its AD tier, content tier and threshold, and is 60.0 when no signal is a column. |
| FixGaps.RequiredCoversSignal | code/fix_gaps.py:83 | required_fps is at least every present signal's rate. |
| FixGaps.RequiredIsSomeSignal | code/fix_gaps.py:83 | When some signal is present, required_fps is the rate of one of them. |
| FixGaps.RequirementMonotone | code/fix_gaps.py:72-83 | A tier with a superset of signals and a higher threshold never needs a lower rate. |
| FixGaps.ComplianceWithinEnhanced | code/fix_gaps.py:32-47 | Compliance's signals are among Enhanced's, and Enhanced and Audio Cinema have the same signals. |
| FixGaps.FixedTiersOrdered | code/fix_gaps.py:32-83 | For a non-empty content tier, Enhanced ≤ Audio Cinema, and Compliance ≤ Enhanced when a Compliance signal is present. |
| FixGaps.FixedMappingShape | code/fix_gaps.py:53-90 | The mapping fails exactly when a signal of some AD tier is a column and some content tier is empty. Otherwise it has 9 rows, including each (AD tier, content tier) requirement. |
| FixGaps.MapAdTiersFixed | code/fix_gaps.py:25-90 | The nested loops compute exactly the fixed mapping, including its failure. |
| FixGaps.AddPerSecond | code/fix_gaps.py:166-167 | Adding `m_per_sec` adds one column, keeps the number of rows, and changes no field of a row except its metric cells. |
| FixGaps.NormalisedColumns | code/fix_gaps.py:164-167 | After normalisation the columns are the old columns plus `m_per_sec` for each count metric that is a column. |
| FixGaps.NormalisedKeeps | code/fix_gaps.py:164-167 | Every cell other than the new `_per_sec` cells is unchanged. |
| FixGaps.NormalisedPerSecond | code/fix_gaps.py:166 | `m_per_sec` is present exactly when m is present and the duration is non-zero, and then equals m / duration. |
| FixGaps.NormaliseByDuration | code/fix_gaps.py:155-167 | The in-place column loop yields the normalised core and validation frames. |
| FixGaps.PerSecondColumns | code/fix_gaps.py:164-167 | `scene_count_per_sec` and `unique_object_count_per_sec` are columns of the normalised core study exactly when their base metric (or the column itself) was one. |
| FixGaps.NormalisedCellDescribed | code/fix_gaps.py:214-232 | A cell gives a row exactly when the metric is a column and both sides hold more than one value at that rate. The row holds both means and their pct_diff. |
| FixGaps.NormalisedComparisonsDescribed | code/fix_gaps.py:208-232 | At most 16 rows. A row is in the result exactly when it is the cell of a key rate and a compared metric. |
| FixGaps.NormalisedOutcomeDescribed | code/fix_gaps.py:208-243 | The comparison raises KeyError on `significant` exactly when no key rate and compared metric yields a row, since a frame built from no rows has no columns. Otherwise the outcome is the comparison rows. |
| FixGaps.NoValidationRaises | code/fix_gaps.py:155-243 | A corpus without validation rows always makes the comparison raise. |
| FixGaps.AnalyzeValidationNormalized | code/fix_gaps.py:152-243 | The split, the normalisation and the comparison loop give exactly that outcome: the KeyError when the comparison is empty, else the comparison rows. |
| CompleteGaps.SignalLevelIsLevel | code/complete_gaps.py:78-92 | A signal's rate is always a global level. intensity_mean and change_score_mean always get the lowest level, and an empty content tier gets the highest. |
| CompleteGaps.CurveLevelFirstReaching | code/complete_gaps.py:74-92 | min ≤ target ≤ max. The rate is the first level whose mean reaches the target, every lower level falls short, and the fallback is not taken. |
| CompleteGaps.IncreasingSignalLevel | code/complete_gaps.py:84-92 | For an increasing signal of a non-empty content tier, the chosen level's mean reaches the range target and no lower level's does. |
| CompleteGaps.SignalLevelMonotone | code/complete_gaps.py:85-92 | A higher threshold never lowers a signal's rate. |
| CompleteGaps.Breakdown | code/complete_gaps.py:67-92 | `min_fps_per_signal` pairs each present signal, in order, with its rate. |
| CompleteGaps.RequirementOutcome | code/complete_gaps.py:57-107 | A row fails exactly when the corpus has no rates. Otherwise it carries its tiers, its threshold and `signals_checked` (the configured count, even when signals were skipped). Its breakdown names the present signals, and `required_fps` is the largest rate in it, or the highest level when it is empty. |
| CompleteGaps.RequiredIsLevel | code/complete_gaps.py:95-98 | required_fps is always a global level. |
| CompleteGaps.RequiredCoversSignal | code/complete_gaps.py:95-96 | required_fps is at least every present signal's rate. |
| CompleteGaps.RequiredIsSomeSignal | code/complete_gaps.py:95-96 | When a signal is present, required_fps is the rate of one of them. |
| CompleteGaps.TiersNest | code/complete_gaps.py:34-53 | Compliance ⊂ Enhanced ⊂ Audio Cinema, and the thresholds rise: 0.70 ≤ 0.85 ≤ 0.95. |
| CompleteGaps.RangeTiersOrdered | code/complete_gaps.py:34-98 | With a Compliance signal present, Compliance ≤ Enhanced ≤ Audio Cinema for every content tier. |
| CompleteGaps.RangeMappingShape | code/complete_gaps.py:57-107 | The mapping fails (the IndexError of `fps_levels[-1]`) exactly when the corpus is empty. Otherwise it has 9 rows, including each (AD tier, content tier) mapping. |
| CompleteGaps.MapAdTiers | code/complete_gaps.py:25-107 | The nested loops compute exactly the range mapping, including its failure. |
| CompleteGaps.FirstMissing | code/complete_gaps.py:183-185 | No metric is missing exactly when all are columns. A reported metric is in the list and is not a column. |
| CompleteGaps.ValidationCellDescribed | code/complete_gaps.py:217-233 | A cell gives a row exactly when both sides hold more than one value at that rate. The row compares the two means. |
| CompleteGaps.ComparedArithmetic | code/complete_gaps.py:229-230 | core + difference = validation. pct_diff recovers validation from a non-zero core mean and is 0 for a zero core mean. Against a positive core mean it has the sign of the difference. |
| CompleteGaps.ValidationOutcomeDescribed | code/complete_gaps.py:162-248 | None exactly when there are no validation rows. A KeyError exactly when there are validation rows and a metric is not a column. Otherwise at most 16 rows, each exactly a cell of a key rate and a metric. |
| CompleteGaps.AnalyzeValidationSet | code/complete_gaps.py:162-248 | The split, column check and comparison loop compute exactly that outcome. |

## Left out

- Plotting, heatmap pivots, savefig, console output, tqdm, and the JSON, parquet and CSV reads and writes: these are presentation and I/O. Files arrive already decoded. The file discovery with `rglob` is not modelled.
- `TIER_MAP` (code/process_results.py:14-19) is never consulted by the code, so it is not modelled. The tier comes only from metadata.
- The F and t statistics, the p-values and the `significant` flags of `f_oneway` and `ttest_ind`: these are foreign library calls. Only the gates and the arithmetic around them are modelled. The `try/except` around `f_oneway` is modelled as never raising.
- The square root in `np.std` and `pooled_std` is numpy's and is a parameter. Properties that depend on its value are stated in terms of `sqrt(...)`.
- Normaliser.SafeMean: NaN handling (`np.nanmean` of an all-NaN list) is floating-point specific and not modelled. Reals have no NaN.
- Normaliser.SafeMean: a list that holds lists gives 0.0. numpy would average a rectangular nested list of numbers over all its leaves; nested measurement lists are not modelled.
- Frames.Cell: a missing metric cell reads as 0, the value the normaliser writes for every absent metric. pandas' `mean` skips NaN cells rather than counting them; the model has no NaN cells except the missing `_per_sec` cells, and those are only read through `dropna` (`Frames.Present`).
- Frames.Sample: the analysed corpus is typed. Each sample has a string video id, tier and study type, and a real fps and duration. The normaliser's `Record` keeps raw JSON values, in which `video_id` and `fps` may be null or of another type; the conversion from records to samples (the DataFrame construction) is not modelled, so a corpus with null or non-numeric identifiers is outside the model.
- Aggregates.AggregateRowsDescribeGroups: states the groups of a typed corpus only. pandas' `groupby(['tier', 'fps'])` drops records whose fps is null (the tier is always set, since the normaliser rejects records without one), and such records are not modelled (see Frames.Sample).
- Aggregates.VideoCountsSumToCorpus: the counts sum to the number of records only for a typed corpus. `count` of `video_id` skips null ids and `groupby` drops null-fps records, so with such records the sum would be smaller; they are not modelled (see Frames.Sample).
- FixGaps.RowPerSecond: a zero duration makes pandas store inf or NaN. The model leaves the `_per_sec` cell missing instead, so `dropna` drops it.
- CompleteGaps.SignalLevel: an empty content tier makes the target NaN, so that no level reaches it and the highest level is chosen. This is modelled as an explicit branch.
- Aggregates.FpsAggregates: pandas `groupby` sorts its output by key. The model lists the groups in first-appearance order, so its lemmas state the rows by membership and count rather than by position. The stability and threshold tables iterate tiers and videos in first-appearance order, as `unique()` does.
- Aggregates.SortByFps: `sort_values` is not stable for equal rates. The model's insertion sort keeps first-appearance order among equal rates.
- Thresholds.AnalyzeFpsThresholds: on an empty threshold table the heatmap `pivot` at code/statistical_analysis.py:286 raises KeyError after the CSV is written. Plotting is not modelled, so the model returns the empty table. The same holds for the ANOVA heatmap `pivot` at code/statistical_analysis.py:162 and EffectSizes.RunAnovaTests.
- Thresholds.SummaryOf: the text formatting of the summary row (`title()`, `:.1f`, `:.0f`) is not modelled. The row holds the numbers. A tier without threshold rows has missing averages (`None` for NaN).
- CompleteGaps.Breakdown: `signal_fps_breakdown` is `str()` of a dict. The model keeps the pairs in insertion order.
- CompleteGaps.ValidationOver: the KeyError text of the plotting loop is modelled as `Err("KeyError: " + m)`.
- FixGaps.FixedMappingShape and CompleteGaps.RangeMappingShape state the 9 rows by count and membership, not by position.
- FixGaps.FixedTiersOrdered: Compliance ≤ Enhanced needs a Compliance signal to be a column. Without one, Compliance's row is the 60.0 default. CompleteGaps.RangeTiersOrdered needs the same.
- `document_dataset_deviation` (code/complete_gaps.py:254-322) writes static text, and is not part of this model. Neither are `analyze_temporal_signals`, `analyze_frame_level_patterns` or the correlation, variance and box plots.
- code/visualize_results.py and reproduction/verify_completion.py are not part of this model.
