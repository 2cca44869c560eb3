# czsc buy-point signals, modelled in Dafny

This project models the signal layer of a stock-screening system built on
Chan theory (缠论). The system reads a czsc chart and decides whether its
latest bottom fractal (分型) marks a buy point. The buy points are the first
buy (一买), the second buy (二买) and the third buy (三买); the other signals
are consolidation divergence (盘整背驰) and moving-average support. A
signal that fires writes a record to a buy-point store, so a fractal is
recorded once.

The model covers:

- the value objects: `objects.py`'s `has_gap`, `FeatureElement`, `TZFX`,
  `XD` (segment) and `XDZS` (segment pivot);
- the two segment detectors: the break-based `analyze_by_break.analyze_xd`,
  and the feature-sequence one in `xd/analyze.py`;
- `get_xd_zs_seq`, which groups segments into segment pivots and shares
  stroke lists between objects;
- the signal utilities of `sig/utils.py`. Their copies in `sig_xd.py`,
  `sig_dev.py` and `sig.py` are modelled once. The one difference is that
  the `sig_xd.py` and `sig_dev.py` copies of `detect_lower_freq_pzbc` also
  demand a valid pivot; a flag selects that check;
- the classifiers:
  - `macd_pzbc_bi` in `sig/pzbc.py`, and the `macd_pzbc_ubi` copies in
    `sig_xd.py`, `sig_dev.py` and `sig.py`. They are one model with a
    variant record for the knobs where they differ;
  - `third_buy_bi` and `third_buy_xd` in `sig/zs_elevate.py`;
  - `trend_reverse_bi` and `trend_reverse_xd` in `sig/trend_reverse.py`,
    with the `trend_reverse_ubi` copies in `sig_xd.py` and `sig_dev.py`.
    These are also one model with a variant record;
  - `trend_reverse_ubi` in `sig.py`, which nests its tests differently and
    is modelled on its own;
  - `long_term_ma_support`, `is_macd_pzbc_bi` and `ma_is_up_and_support` in
    `sig/powers.py`;
- the two example classifiers of `hjw_examples/sig.py`, and
  `pzbc_macd_bc_V231221` of `czsc/signals/hjw_cxt.py`;
- the two bar filters the screening scripts share (`_break_out_threshold`
  and `stock_amount_below_limit`);
- the decorators of `src/decorate.py`.

Python's exceptions are values here. An operation returns
`Ok(value)` or `Err(e)`, where `e` names the exception the source raises:
IndexError, ValueError, ZeroDivisionError, TypeError, AttributeError or
AssertionError. Prices are `real` numbers and dates are whole day numbers.

The czsc library is an input, not a model:

- the chart (`CZSC`) is a record of its bars, strokes, unfinished stroke
  and fractals;
- the library's `get_zs_seq`, pivot validity, `check_gap_info`, `ma_is_up`
  and stroke equality are opaque functions in a `Library` value.

The buy-point store is a class `Store` holding its records as a sequence.
Each classifier has two forms:

- a function of the stored records, which returns the outcome and the new
  records;
- a method on a `Store`, proved to give the same outcome and the same
  records.

The properties are stated about the function.

## Model

| member | source | states |
|---|---|---|
| Market.Div | src/sig/trend_reverse.py:71 | Float division raises ZeroDivisionError exactly for a zero divisor, and otherwise gives the quotient. |
| Market.At | src/sig/trend_reverse.py:49-50 | Python indexing with negative indices: in range gives the element counted from the end, and out of range raises IndexError. |
| Market.SliceBound | src/sig/powers.py:153 | Python's slice bound for `s[k:]`: `k` itself inside the list, counted from the end for negative `k`, clamped to the ends beyond them. |
| Market.MinOf | src/sig/pzbc.py:86-87 | `min` raises ValueError exactly on an empty list, and otherwise is the least element. |
| Market.MaxOf | hjw_examples/sig.py:36-37 | `max` raises ValueError exactly on an empty list, and otherwise is the greatest element. |
| Market.SumNegative | src/sig/pzbc.py:89-90 | The total of the negative entries is never positive, and is zero exactly when no entry is negative. |
| Market.SumPositive | hjw_examples/sig.py:38-39 | The total of the positive entries is never negative, and is zero exactly when no entry is positive. |
| Market.RawBarsOfAppend | src/sig/trend_reverse.py:213-214 | Chaining the strokes' raw bars distributes over concatenating stroke lists. |
| Objects.HasGapIffNoCommonPrice | src/objects.py:8-9 | Two well-formed price ranges have a gap exactly when no price lies in both. |
| Objects.HasGapSymmetric | src/objects.py:8-9 | The gap test does not depend on the order of its arguments. |
| Objects.NewFeatureElement | src/objects.py:12-27 | A new feature element carries its stroke's own high and low and the given index. |
| Objects.TzfxGapIgnoresThirdElement | src/objects.py:41-44 | A turning fractal's gap test reads only its first two elements. |
| Objects.MaxHigh | src/objects.py:73-76 | The result bounds every stroke's high from above and is one of them. |
| Objects.MinLow | src/objects.py:78-81 | The result bounds every stroke's low from below and is one of them. |
| Objects.XdValidNeedsOverlap | src/objects.py:64-71 | A segment with an end and three strokes is valid exactly when its first and third strokes share a price. |
| Objects.XdRangeCoversStrokes | src/objects.py:73-81 | A segment's low and high bound every one of its strokes, and low is at most high. |
| Objects.XdZs.Zg | src/objects.py:104-107 | `zg` is the lowest high among the first three segments: it bounds them from below and is one of them. |
| Objects.XdZs.Zd | src/objects.py:109-112 | `zd` is the highest low among the first three segments: it bounds them from above and is one of them. |
| Objects.XdZs.Zz | src/objects.py:134-137 | `zz` is equidistant from `zd` and `zg`. |
| Objects.ValidPivotMembersMeetBand | src/objects.py:150-167 | On a valid pivot, every member segment's price range meets the band [zd, zg]. |
| Objects.PointBandRejectsStraddle | src/objects.py:160-165 | On a single-price band, a segment that passes straight through it does not count as touching it, because the third case needs `zg > zd`. |
| Objects.ValidPivotBandOrdered | src/objects.py:150-167 | A valid pivot has `zd <= zg` and at least three segments. |
| Objects.ShortPivotInvalid | src/objects.py:150-167 | With fewer than three segments a pivot is never valid, whatever its prices. |
| Chan.Zs.Zg | src/sig/trend_reverse.py:86 | A stroke pivot's `zg` is the lowest high of its first three strokes. |
| Chan.Zs.Zd | src/sig/trend_reverse.py:85-86 | A stroke pivot's `zd` is the highest low of its first three strokes. |
| History.PointExists | src/sig/trend_reverse.py:59 | `buy_point_exists` is true exactly when some record has that symbol, date, frequency and database. |
| History.HasRecent | src/sig/trend_reverse.py:105 | `check_duplicate` is true exactly when a record of that signal is dated in `[edt - days, edt]`. |
| History.LatestDate | src/sig/trend_reverse.py:106 | `query_latest_buy_point` gives the date of some record of the signal, and no such record is later. |
| History.RecentHasLatest | src/sig/trend_reverse.py:105-106 | When `check_duplicate` is true, a latest record exists, and it is no earlier than the window's start. |
| History.InsertedIsFound | src/sig/trend_reverse.py:96-101 | A record just inserted is found under its own key. |
| History.InsertedIsRecent | src/sig/trend_reverse.py:96-106 | A record just inserted inside the window counts for `check_duplicate`, and the latest date is then no earlier than its own. |
| History.Store.Insert | src/sig/trend_reverse.py:98-99 | `insert_buy_point` appends the record after the existing ones. |
| Signals.NewPoint | src/sig/trend_reverse.py:98-99 | The written record carries the fractal's date and power, the signal, the profit and the database. |
| Signals.PreludeGate | src/sig/trend_reverse.py:46-61 | Passing the opening checks yields the last bar, the latest fractal and the unfinished stroke. A stop carries one of four outcomes: an error, 'K线不合标准', '没有底分型' or '已存在'. |
| Signals.PreludeGateOrder | src/sig/trend_reverse.py:49-61 | The opening checks stop in the source's order: missing bars or fractals raise IndexError; no bar of the fractal's date raises ValueError; then come too few strokes, a stale or non-bottom fractal, and an existing record. |
| Signals.GoMeansFreshBottom | src/sig/trend_reverse.py:53-63 | A classifier past its checks has a fresh bottom fractal with no stored record. |
| Signals.PreludeSeesRecord | src/sig/trend_reverse.py:59-61 | Once the fractal's key is stored, a chart that passed the checks stops at '已存在'. |
| Signals.Prelude | src/sig/trend_reverse.py:49-61 | The opening checks with the freshness scan run as its loop agree with `PreludeGate`. |
| Signals.Profit | src/sig/trend_reverse.py:71 | The estimated profit raises ZeroDivisionError exactly for a zero price. |
| Signals.MomentumOf | src/sig/trend_reverse.py:76-80 | `min` of the difs raises ValueError exactly for no bars; otherwise the result is the least dif and the negative macd area. |
| Signals.MomentumPair | src/sig/trend_reverse.py:75-80 | Both strokes' momentum, with the first stroke's error taking precedence. |
| Signals.StrokesFrom | src/sig/trend_reverse.py:109 | Exactly the strokes starting on or after the day are kept. `StrokesFromAppend` and `StrokesFromSingle` fix their order and multiplicity. |
| Signals.StrokesFromKeepsLater | src/sig/trend_reverse.py:109 | Filtering keeps every stroke when all start on or after the day. |
| Signals.StrokesFromAppend | src/sig/trend_reverse.py:109 | Filtering a concatenation is the concatenation of the filtered parts, so the filter keeps order and multiplicity. |
| Signals.StrokesFromSingle | src/sig/trend_reverse.py:109 | A single stroke is kept exactly when it starts on or after the day. |
| Signals.StrokesFromNoneLater | src/sig/trend_reverse.py:109 | Nothing is kept when every stroke starts before the day. |
| Signals.StrokesFromFirst | src/sig.py:229-232 | The first stroke kept, which the later search reads, is the first stroke of the list that starts on or after the day. |
| Signals.FreshnessMonotone | src/sig/trend_reverse.py:51 | A longer look-back accepts every fractal a shorter one accepts, and both raise on the same inputs. |
| Signals.DefaultLimitsNested | src/sig/pzbc.py:20 | Under the default look-backs (30 for `macd_pzbc_bi`, 5 for the others), a fractal fresh for the others is fresh for `macd_pzbc_bi`. |
| SigUtils.IsStrongBotFx | src/sig/utils.py:13-24 | All conditions are evaluated first, so a missing unfinished stroke raises TypeError whatever the fractal. Otherwise the result is the conjunction of the conditions. |
| SigUtils.DateExceed | src/sig/utils.py:27-58 | ValueError exactly when no bar has the fractal's date. Otherwise: whether more than `limit` bars follow the last bar of that date. |
| SigUtils.DateExceedRawbars | src/sig/utils.py:27-58 | The backward scan stops at the first match and equals `DateExceed`. |
| SigUtils.UniqueLastBar | src/sig/utils.py:43-49 | A bar of the date with no later bar of that date is the one the scan finds. |
| SigUtils.FirstDownAtHigh | src/sig/utils.py:70 | The first down stroke whose high equals `gg`, with no earlier such stroke. |
| SigUtils.TargetPivot | src/sig/utils.py:62-68 | The last pivot, merged with the one before when it is invalid, ends down and is not alone; it is never empty. |
| SigUtils.SelectPzbcBis | src/sig/utils.py:61-72 | None without pivots. Otherwise, the suffix of the target pivot from the first down stroke reaching its high, or all of it. |
| SigUtils.LegStartsAtPivotHigh | src/sig/utils.py:70-71 | When a down stroke reaches the pivot high, the leg starts with it. |
| SigUtils.LegIsPivotSuffix | src/sig/utils.py:70-71 | The leg is a non-empty suffix of the target pivot and ends with its last stroke. |
| SigUtils.DetectLowerFreqPzbc | src/sig/utils.py:75-108 | None without a leg. ValueError when the leg's strokes together carry no raw bars, as `max` then sees an empty sequence. Otherwise true exactly when the turn and the pivot conditions hold, and, in the checking copies, the pivot is valid. |
| SigUtils.CheckedPzbcImpliesUnchecked | src/sig_xd.py:312-341 | The copies that check validity are more demanding than the utilities copy. |
| SigUtils.SearchNewestFirst | src/sig/utils.py:111-118 | The newest-first search finds a gap of the wanted kind exactly when one is uncovered. |
| SigUtils.HasUncoverGap | src/sig/utils.py:111-118 | True exactly when some gap of the wanted direction is uncovered. |
| SigUtils.RawBarIncreaseWithinLimit | src/sig/utils.py:121-125 | IndexError with fewer than two bars and ZeroDivisionError for a zero last high. Otherwise, whether the rise stays within the percentage. |
| SigUtils.IncreaseLimitForPositiveHigh | src/sig/utils.py:121-125 | With a positive high, the ratio test is `high - begin <= percentage * high`. |
| SigUtils.SelectFailedConditions | src/sig/utils.py:128-129 | Exactly the descriptions of the failing conditions, in order. |
| SigUtils.NoFailuresIffAllHold | src/sig/utils.py:128-129 | No failure is listed exactly when every condition holds. |
| SigUtils.FailedConditionsAppend | src/sig/utils.py:128-129 | The failures of concatenated lists are the concatenated failures. |
| AnalyzeByBreak.BiHasGapIsDirectedGap | src/xd/analyze_by_break.py:8-13 | `bi_has_gap` is the one of `has_gap`'s two gaps chosen by the first stroke's direction. |
| AnalyzeByBreak.IsBrokenByXdCases | src/xd/analyze_by_break.py:24-32 | `is_broken_by_xd`, case by case over the gap and the stroke directions. |
| AnalyzeByBreak.CanStartXd | src/xd/analyze_by_break.py:35-42 | IndexError exactly when stroke `i + 2` is past the end. Otherwise, whether it goes at least as far as stroke `i`. |
| AnalyzeByBreak.Step | src/xd/analyze_by_break.py:49-66 | One loop pass opens, extends or closes the segment under construction, and raises only through `can_start_xd`. |
| AnalyzeByBreak.AnalyzeXd | src/xd/analyze_by_break.py:45-77 | The detector's loop computes `AnalyzeXdSpec`. |
| AnalyzeByBreak.AnalyzeXdResult | src/xd/analyze_by_break.py:45-77 | IndexError exactly when no segment can start before the last two strokes. Otherwise the result is a segmentation: contiguous runs from the first startable stroke to the end, each closed where a break occurs, the last one trimmed. |
| AnalyzeByBreak.TrailingSegmentAlwaysKept | src/xd/analyze_by_break.py:68-75 | The trailing segment always has three strokes before trimming, so it is never dropped. |
| AnalyzeByBreak.DetectedSegmentsNonEmpty | src/xd/analyze_by_break.py:45-77 | Every returned segment holds at least two strokes. |
| AnalyzeByBreak.AlternatingSegmentShape | src/xd/analyze_by_break.py:45-77 | For alternating strokes, each segment has three or more strokes and ends in its own direction. |
| AnalyzeByBreak.AlternatingSegmentsEndInDirection | src/xd/analyze_by_break.py:68-75 | The same for every segment, trimmed or not. |
| AnalyzeByBreak.AlternatingParity | src/xd/analyze_by_break.py:49-66 | In an alternating list, two strokes have the same direction exactly when their distance is even. |
| AnalyzeFeature.IsIncludedMeansContainment | src/xd/analyze.py:15-18 | Inclusion is symmetric, and for well-formed elements it is containment of ranges. |
| AnalyzeFeature.MergeElements | src/xd/analyze.py:21-30 | An up-led merge keeps the lower high and the lower low; otherwise the higher of each. |
| AnalyzeFeature.Inclusion | src/xd/analyze.py:4-12 | IndexError on an empty list. Otherwise the element is appended, or merged into the last when the two are in inclusion; the prefix is kept. |
| AnalyzeFeature.TopBottomDuality | src/xd/analyze.py:50-59 | Top and bottom fractals are mirror images, and no triple is both. |
| AnalyzeFeature.IdentifyTzfxs | src/xd/analyze.py:33-47 | Only a top for an up segment and only a bottom for a down one, built from the last three elements. |
| AnalyzeFeature.FirstExtreme | src/xd/analyze.py:178-211 | The first position holding a stroke of the direction that no such stroke beats. |
| AnalyzeFeature.FindExtremeBi | src/xd/analyze.py:178-211 | ValueError unless the window is six wide, reachable and holds a stroke of the direction. Otherwise the first most extreme such stroke. |
| AnalyzeFeature.ForcedSplitAlwaysRaises | src/xd/analyze.py:152-160 | The forced split's guard and the callee's requirement contradict each other, so the branch always raises ValueError. |
| AnalyzeFeature.FeatureSequence.ProcessInclusion | src/xd/analyze.py:4-12 | The list becomes `Inclusion` of the old list and the element. |
| AnalyzeFeature.FeatureSequence.Feed | src/xd/analyze.py:109-112 | Seeds an empty sequence, then handles inclusion, as `FeedSpec` states. |
| AnalyzeFeature.FeedEmptyGivesOne | src/xd/analyze.py:109-112 | Feeding an empty sequence leaves exactly the stroke's element. |
| AnalyzeFeature.FeedKeepsPrefix | src/xd/analyze.py:109-112 | Feeding never shortens the sequence and touches only its last one or two elements. |
| AnalyzeFeature.DriverAlwaysRaises | src/xd/analyze.py:62-104 | The driver always fails. It raises AttributeError exactly when its gap guard reaches a stroke with a symbol, and IndexError otherwise. |
| AnalyzeFeature.FeatureAnalyzeXdNeverSucceeds | src/xd/analyze.py:62-104 | The driver's result is always an error. |
| XdPivots.AddSegment | src/sig/utils.py:142-155 | One grouping step yields a non-empty list whose last pivot is well formed. |
| XdPivots.Group | src/sig/utils.py:132-157 | No segments give no pivots, and the last pivot is well formed. |
| XdPivots.JoinKeepsGood | src/sig/utils.py:153-155 | Joining keeps the lead sharing the pivot's strokes and every member inside the pivot's range. |
| XdPivots.GroupGood | src/sig/utils.py:132-157 | Every pivot built is well formed, its lead's strokes are the pivot's, and every member lies in its range. |
| XdPivots.GroupPartitions | src/sig/utils.py:132-157 | The members, read in order, are the input segments; the pivots' strokes are the input's strokes. |
| XdPivots.GroupStep | src/sig/utils.py:142-155 | A segment opens a pivot exactly when the opening rule fires against the last pivot; otherwise it joins the last pivot, which keeps its place. |
| XdPivots.AliasedBandOf | src/sig/utils.py:153-155 | After a join, the lead's high and low are the pivot's `gg` and `dd`, so the band is set by the other members alone. |
| XdPivots.AliasedBand | src/sig/utils.py:153-155 | The same for every pivot the grouping builds with two or more members. |
| XdPivots.AliasingChangesGrouping | src/sig/utils.py:148-155 | On a concrete input, the shared list keeps a third segment in the pivot where unshared values would have opened a new one. |
| XdPivots.ThirdAfterJoin | src/sig/utils.py:148-155 | After a join, a third segment joins exactly when it reaches the second segment's range. |
| XdPivots.TwoMemberBand | src/objects.py:104-112 | A lead joined by one segment has that segment's range as its band. |
| XdPivots.ExampleBuiltBand | src/objects.py:104-112 | The band of the example's first two segments as built differs from the band of the shared pivot. |
| XdPivots.LeadIsUnshared | src/sig/utils.py:153-155 | The last pivot's lead is no other pivot's member and no segment still to come. |
| XdPivots.JoinLast | src/sig/utils.py:153-155 | The join appends the segment to the last pivot and extends its lead's stroke list in place; no other object changes. |
| XdPivots.Step | src/sig/utils.py:142-155 | One loop pass moves what the pivots describe from `Group` of `i` segments to `Group` of `i + 1`. |
| XdPivots.GetXdZsSeq | src/sig/utils.py:132-157 | On distinct non-empty segment objects, the members are the input objects in order, and what the pivots describe is `Group` of the input values. |
| Pzbc.PzbcShapeMeaning | src/sig/pzbc.py:92-102 | None of the structural tests fails exactly when all hold. |
| Pzbc.PzbcConditionsMeaning | src/sig/pzbc.py:92-102 | No condition fails exactly when the first-buy conditions hold. |
| Pzbc.PzbcLeg | src/sig/pzbc.py:76-81 | The leg is present exactly when `select_pzbc_bis` finds a non-empty slice. |
| Pzbc.PzbcStageMeaning | src/sig/pzbc.py:81-114 | The stage writes exactly when it fires, and then writes the first buy with the estimated profit. |
| Pzbc.PzbcFirstBuyIff | src/sig/pzbc.py:20-114 | The first buy is signalled exactly when the conditions fire, and a record is written exactly then. |
| Pzbc.PzbcFirstBuyRecord | src/sig/pzbc.py:104-114 | When it fires, the one record written is the latest fractal's, with profit `(zs2.zd - price) / price`. Power and profit are surfaced unless the fractal is weak. |
| Pzbc.PzbcWritesOnlyNewFirstBuy | src/sig/pzbc.py:51-114 | A run changes the store only by appending a first buy for a fractal whose key was not stored. |
| Pzbc.PzbcRecordsOnce | src/sig/pzbc.py:57-59 | Running again after recording stops at '已存在' and writes nothing. |
| Pzbc.LegPresentIffPivots | src/sig.py:60-72 | The older copy's pivot-count test agrees with the others' leg test. |
| Pzbc.MacdPzbc | src/sig/pzbc.py:20-114 | The classifier on the store gives the outcome and the records of `PzbcRun`. |
| Pzbc.IsMacdPzbcBi | src/sig/powers.py:70-122 | No leg gives false. With a leg, ValueError exactly when the leg's first or last stroke has no bars; otherwise TypeError exactly when there is no unfinished stroke. No other input raises. |
| Pzbc.IsMacdPzbcBiMeaning | src/sig/powers.py:70-122 | `is_macd_pzbc_bi` is true exactly when its conditions hold. |
| Pzbc.PzbcAgreesWithCore | src/sig/powers.py:70-122 | Past their gates and with a nonzero price, the copies without a ratio test record a first buy exactly when `is_macd_pzbc_bi` is true. |
| Powers.MaSupport | src/sig/powers.py:125-157 | False with fewer than `last_n` bars, and false when the price is below the last average. IndexError exactly when the last bar of an empty list is read. |
| Powers.MaIsUpAndSupport | src/sig/powers.py:143-157 | The loop over the window computes `MaSupport`. |
| Powers.RisingWindowIsMonotone | src/sig/powers.py:153-157 | A window rising step by step rises between any two of its bars. |
| Powers.SupportMeansRisingWindow | src/sig/powers.py:147-157 | Passing support puts the latest average at or above every average in the window, and the price at or above the latest. |
| Powers.MaSupportIff | src/sig/powers.py:147-157 | With a window of at least one bar that fits, the test passes exactly when the price is at or above the last average and the average never falls between two bars of the window. |
| Powers.LongTermMaFires | src/sig/powers.py:15-67 | Fires exactly when the gates pass, the last high is supported by a two-bar rising average, and the divergence holds. It then records the fractal with its power; nothing else writes. |
| Powers.LongTermMaSupport | src/sig/powers.py:15-67 | The signal on the store gives the outcome and the records of `LongTermMaRun`. |
| ZsElevate.Emit | src/sig/zs_elevate.py:85-94 | A passing test records the third buy for the latest fractal and surfaces power and profit unless the fractal is weak. A failing test returns '其他' and writes nothing. |
| ZsElevate.BiConditionsMeaning | src/sig/zs_elevate.py:75-82 | No stroke-copy condition fails exactly when all hold. |
| ZsElevate.BiEntry | src/sig/zs_elevate.py:44-65 | A finished entry writes nothing and names no buy. |
| ZsElevate.BiEntryMeaning | src/sig/zs_elevate.py:44-67 | The pivots are reached exactly when the checks pass and there are two pivots. The entry then holds the last bar, the fresh bottom fractal, the unfinished stroke and the last two pivots. |
| ZsElevate.BiStageMeaning | src/sig/zs_elevate.py:67-94 | Short pivots stop at '中枢笔不足' and a zero close raises ZeroDivisionError. Otherwise the third buy is written exactly when the conditions hold. |
| ZsElevate.ThirdBuyBiFires | src/sig/zs_elevate.py:20-94 | Writes exactly when the test passes. It then appends one third buy with profit `(zs2.zg - close) / close`; otherwise it names no third buy. |
| ZsElevate.ThirdBuyBiStops | src/sig/zs_elevate.py:62-72 | The stops past the checks come in order: '中枢不够', then '中枢笔不足', then ZeroDivisionError. |
| ZsElevate.ElevatePivots | src/sig/zs_elevate.py:139-141 | The detector's error, or well-formed pivots of the detected segments. |
| ZsElevate.XdConditionsMeaning | src/sig/zs_elevate.py:154-162 | No segment-copy condition fails exactly when all hold. |
| ZsElevate.XdEntry | src/sig/zs_elevate.py:121-147 | A finished entry writes nothing and names no buy. |
| ZsElevate.XdEntryMeaning | src/sig/zs_elevate.py:121-147 | The pivots are reached exactly when the checks pass, the detector succeeds and there are two pivots. |
| ZsElevate.XdStageMeaning | src/sig/zs_elevate.py:147-174 | An earlier pivot with fewer than three segments stops at 'zs1不成立' and a zero close raises ZeroDivisionError. Otherwise the third buy is written exactly when the conditions hold. |
| ZsElevate.ThirdBuyXdFires | src/sig/zs_elevate.py:97-174 | Under either reading of the direction test, it writes exactly when the test passes, and writes one third buy of the latest fractal. |
| ZsElevate.XdNeverBuys | src/sig/zs_elevate.py:157 | As written, the segment copy never records anything and never returns '三买'. |
| ZsElevate.XdIntendedFires | src/sig/zs_elevate.py:147-174 | Read as intended, it writes exactly when there are two pivots, the close is nonzero, the earlier pivot has at least three segments, the last pivot holds one down segment of more than two strokes, the unfinished stroke rises with fewer than two fractals, and the earlier pivot's `zg` lies below the fractal's low. |
| ZsElevate.BiRecordsOnce | src/sig/zs_elevate.py:56-58 | A call that wrote stops at '已存在' when repeated on the new records. |
| ZsElevate.XdRecordsOnce | src/sig/zs_elevate.py:133-135 | The same for the segment copy, under either reading. |
| ZsElevate.BiEntryOn | src/sig/zs_elevate.py:44-67 | The entry on the store equals `BiEntry`. |
| ZsElevate.BiStageOn | src/sig/zs_elevate.py:67-94 | The stage on the store gives the outcome and records of `BiStage`. |
| ZsElevate.ThirdBuyBi | src/sig/zs_elevate.py:20-94 | `third_buy_bi` on the store gives the outcome and records of `ThirdBuyBiRun`. |
| ZsElevate.ComputeElevatePivots | src/sig/zs_elevate.py:139-141 | The detector run as its loop gives `ElevatePivots`. |
| ZsElevate.XdEntryOn | src/sig/zs_elevate.py:121-147 | The entry on the store equals `XdEntry`. |
| ZsElevate.XdStageOn | src/sig/zs_elevate.py:147-174 | The stage on the store gives the outcome and records of `XdStage`. |
| ZsElevate.ThirdBuyXd | src/sig/zs_elevate.py:97-174 | `third_buy_xd` on the store gives the outcome and records of `ThirdBuyXdRun`. |
| TrendReverse.SegmentPivots | src/sig/trend_reverse.py:248-252 | The detector's error passes through. No segments raise IndexError when the leading segment is popped. Success needs the detector's success. |
| TrendReverse.TrendConditionsMeaning | src/sig/trend_reverse.py:82-94 | No first-buy condition fails exactly when the conditions hold. |
| TrendReverse.FirstBuyStageMeaning | src/sig/trend_reverse.py:74-103 | A first buy is recorded exactly when the test holds. It is returned for a strong fractal, and otherwise the call goes on with '一买'. Failing, the call goes on with '其他' or returns ValueError. |
| TrendReverse.ExtraChecks | src/sig/trend_reverse.py:112-122 | `trend_reverse_bi`'s 8% rise limit and gap-or-average test, with the errors of the rise test. |
| TrendReverse.LaterConditionsMeaning | src/sig/trend_reverse.py:116-124 | No later condition fails exactly when the later conditions hold. |
| TrendReverse.TrendEntry | src/sig/trend_reverse.py:49-71 | A call finishing before the first-buy test writes nothing and names no buy; one reaching it reads the latest fractal and the unfinished stroke. |
| TrendReverse.PivotEntry | src/sig/trend_reverse.py:65-71 | Reaching the test means three or more pivots; it carries the last two and the profit of the last pivot's `zd` over the close. |
| TrendReverse.TrendEntryReaches | src/sig/trend_reverse.py:53-71 | The test is reached exactly when the checks pass, three pivots are found and the profit is defined. |
| TrendReverse.TrendEntryStops | src/sig/trend_reverse.py:53-68 | A call stops with the checks' outcome, the pivot error, or '中枢<3'. |
| TrendReverse.ThirdBuyStageOutcome | src/sig/trend_reverse.py:141-149 | IndexError with a single pivot. A third buy is surfaced with power, unless the fractal is weak in the gated copy. |
| TrendReverse.BuyStageOutcome | src/sig/trend_reverse.py:126-149 | The later tests write at most one record, a second or third buy of the latest fractal. With one pivot since the buy, the call returns a non-weak second buy or raises IndexError. |
| TrendReverse.SecondBuyStageMeaning | src/sig/trend_reverse.py:126-149 | A second buy is written exactly when its test holds. A non-weak one is returned with power and profit. After a weak one, the read of the second pivot raises IndexError. A third buy is written exactly when the second-buy test fails and the third-buy test holds on two or more pivots. |
| TrendReverse.FirstBuyOrLaterIff | src/sig/trend_reverse.py:74-153 | The first buy is written exactly when its test holds, as the first record. It is returned exactly for a strong fractal, and otherwise the later search runs on the records including it. |
| TrendReverse.TrendWritesLatestFractal | src/sig/trend_reverse.py:22-153 | A call finishing early writes nothing. One reaching the test writes only buys of the latest fractal with the computed profit. |
| TrendReverse.TrendFirstBuyIff | src/sig/trend_reverse.py:22-153 | Over a whole call, the first buy is written exactly when the first-buy test passes, and returned exactly for a strong fractal. |
| TrendReverse.FirstBuySearchesSince | src/sig/trend_reverse.py:105-109 | After writing a first buy in the window, the later search runs on the strokes since the latest first buy, which is no earlier. |
| TrendReverse.TrendRecordsOnce | src/sig/trend_reverse.py:59-61 | A call that wrote stops at '已存在' when repeated. |
| TrendReverse.NoStrokesSinceBuy | src/sig/trend_reverse.py:249-251 | With no strokes since the buy, `trend_reverse_xd` raises IndexError popping, while the `sig_xd.py` copy reports `v1`. |
| TrendReverse.ComputePivots | src/sig/trend_reverse.py:248-252 | The pivots with the detector run as its loop equal `PivotsOf`. |
| TrendReverse.LaterBuysOn | src/sig/trend_reverse.py:105-153 | The later search on the store gives the outcome and records of `LaterBuys`. |
| TrendReverse.LaterTestsOn | src/sig/trend_reverse.py:110-149 | The later tests on the store give the outcome and records of `LaterTests`. |
| TrendReverse.BuyStageOn | src/sig/trend_reverse.py:126-149 | The second- and third-buy tests on the store give the outcome and records of `BuyStage`. |
| TrendReverse.TrendEntryOn | src/sig/trend_reverse.py:49-71 | The entry on the store equals `TrendEntry`. |
| TrendReverse.TrendReverseSignal | src/sig/trend_reverse.py:22-153 | The classifier on the store gives the outcome and records of `TrendRun`. |
| TrendReverse.FirstBuyThenLaterOn | src/sig/trend_reverse.py:74-153 | The first-buy test then the later search, on the store, gives `FirstBuyOrLater`. |
| SigLegacy.LegacyFirstBuyMeaning | src/sig.py:167-193 | The nested test accepts exactly the first buys the flat test accepts, and returns one unless the fractal is weak. ValueError exactly when the shape passes and a member has no bars. |
| SigLegacy.LegacyMomentumIsLazy | src/sig.py:167-193 | Momentum is measured only after the shape passes, so a member without bars raises in the development copy and not here. |
| SigLegacy.LegacyGate | src/sig.py:226-251 | The `and` chain reads the last bar and the one before only when needed; IndexError exactly for a missing bar. |
| SigLegacy.LegacyBuysOutcome | src/sig.py:254-274 | At most one record, written exactly when the second- or third-buy test holds. The record is '二买' when the second-buy test holds and '三买' when only the third-buy test holds. It is returned with power and profit. |
| SigLegacy.LegacySinceOutcome | src/sig.py:205-251 | IndexError with no strokes since the buy and ValueError when the first has no bars. Writes only when the gate holds. |
| SigLegacy.LegacyLaterOutcome | src/sig.py:205-274 | Without a recent first buy, the call reports `v1` and writes nothing. |
| SigLegacy.LegacyEntry | src/sig.py:116-166 | A finished entry writes nothing and names no buy; one reaching the test reads the latest fractal. |
| SigLegacy.LegacyEntryAgainstDev | src/sig.py:140-166 | With fifteen strokes it reaches the development copy's place; with fewer it stops in its checks. |
| SigLegacy.LegacyFirstBuyOrLaterIff | src/sig.py:167-274 | From the test on, the first buy is written exactly when the conditions hold, and returned exactly for a non-weak fractal. |
| SigLegacy.LegacyWritesLatestFractal | src/sig.py:116-275 | A call writes only buys of the latest fractal. |
| SigLegacy.LegacyFirstBuyIff | src/sig.py:116-275 | Over a whole call, the first buy is written exactly when its test passes. |
| SigLegacy.LegacyRecordsOnce | src/sig.py:116-275 | A call that wrote stops at '已存在' when repeated. |
| SigLegacy.TrendReverseLegacy | src/sig.py:116-275 | The classifier on the store gives the outcome and records of `LegacyRun`. |
| SigLegacy.LegacyEntryOn | src/sig.py:116-166 | The entry on the store equals `LegacyEntry`. |
| SigLegacy.LegacyFirstBuyThenLaterOn | src/sig.py:167-275 | The first-buy test then the later search, on the store. |
| SigLegacy.LegacyLaterOn | src/sig.py:205-275 | The later search on the store. |
| SigLegacy.LegacyBuysOn | src/sig.py:254-274 | The buys on the store. |
| HjwSig.RiseMomentum | hjw_examples/sig.py:36-39 | `max` of the difs raises ValueError exactly for no bars. Otherwise: the greatest dif and the positive macd area. |
| HjwSig.StrokeDivergence | hjw_examples/sig.py:35-50 | The earlier stroke's momentum is read only inside a branch, and raises ValueError there when it has no bars. |
| HjwSig.FallMomentum | hjw_examples/sig.py:45-48 | The falling measures are the least dif and the negative area. |
| HjwSig.StrokeDivergenceMeaning | hjw_examples/sig.py:35-50 | Each `v1` is given exactly by its own test; ValueError exactly when the read stroke has no bars. |
| HjwSig.MacdPzbcUbiMeaning | hjw_examples/sig.py:10-52 | Each `v1` of `macd_pzbc_ubi` is given exactly by its own test. |
| HjwSig.MirroredMomentum | hjw_examples/sig.py:36-48 | The rising measures of mirrored bars are the negated falling ones. |
| HjwSig.NegatedDivergence | hjw_examples/sig.py:41-49 | Negated, a weaker fall is a weaker rise. |
| HjwSig.BullTestMirror | hjw_examples/sig.py:44-50 | The bottom test on a mirrored chart is the top test. |
| HjwSig.BearTestMirror | hjw_examples/sig.py:35-42 | The top test on a mirrored chart is the bottom test. |
| HjwSig.StrokeDivergenceMirror | hjw_examples/sig.py:35-50 | Mirrored strokes give the same result with '空头' and '多头' exchanged. |
| HjwSig.MacdPzbcUbiMirror | hjw_examples/sig.py:10-52 | The classifier on a mirrored chart exchanges '空头' and '多头'. |
| HjwSig.TrendReverseUbi | hjw_examples/sig.py:55-109 | The middle pivot's last stroke is read only in the first-buy test, raising ValueError there when it has no bars. |
| HjwSig.BuyTestsExclusive | hjw_examples/sig.py:88-100 | The third-buy and first-buy tests exclude each other. |
| HjwSig.TrendReverseUbiMeaning | hjw_examples/sig.py:55-109 | The early labels come in order. '三买' and '一买' are each given exactly by their test, and ValueError exactly when the outer first-buy test holds and the stroke has no bars. |
| HjwCxt.SubElements | czsc/signals/hjw_cxt.py:55 | The `n` elements ending `di - 1` before the end, as Python slices take them. |
| HjwCxt.SubElementsWindow | czsc/signals/hjw_cxt.py:55 | With enough elements, exactly those `n`. |
| HjwCxt.SubElementsShort | czsc/signals/hjw_cxt.py:55-62 | With too few elements, fewer than `n` come back. |
| HjwCxt.Divergence | czsc/signals/hjw_cxt.py:66-74 | Each branch is entered on the last macd step's direction, and raises ValueError when there are no older bars. |
| HjwCxt.PzbcMacdBcGuards | czsc/signals/hjw_cxt.py:58-62 | AssertionError exactly when `n < 3`. Without a full window the result is '其他' and '任意'. |
| HjwCxt.DefaultWindow | czsc/signals/hjw_cxt.py:45-65 | Under the defaults `di=1, n=3, m=50`, no assertion fails. With fewer than 53 bars the result is '其他' and '任意'; otherwise the tests run on the last 53 bars. |
| HjwCxt.WindowPartition | czsc/signals/hjw_cxt.py:62-65 | With `m >= 0`, the older and recent bars split the window in order. |
| HjwCxt.NegativeOlderWindow | czsc/signals/hjw_cxt.py:62-65 | With negative `m`, the length assertion fails. |
| HjwCxt.FullWindowMeaning | czsc/signals/hjw_cxt.py:62-78 | '底部' and '顶部' are each given exactly by their test. '红柱' is given exactly when the last macd is positive. |
| HjwCxt.BottomTopExclusive | czsc/signals/hjw_cxt.py:71-74 | The two tests never both hold. |
| HjwCxt.NoOlderBars | czsc/signals/hjw_cxt.py:66-74 | With no older bars, ValueError exactly when the last macd step is not flat. |
| HjwCxt.BottomMirrorsTop | czsc/signals/hjw_cxt.py:71-74 | The bottom test on mirrored windows is the top test. |
| HjwCxt.TopMirrorsBottom | czsc/signals/hjw_cxt.py:71-74 | The top test on mirrored windows is the bottom test. |
| Reflection.MaxOfNeg | hjw_examples/sig.py:36-46 | The largest negated entry is the negated smallest. |
| Reflection.MinOfNeg | hjw_examples/sig.py:36-46 | The smallest negated entry is the negated largest. |
| Reflection.SumPositiveOfNeg | hjw_examples/sig.py:38-48 | The positive area of negated entries is the negated negative area. |
| Reflection.SumNegativeOfNeg | hjw_examples/sig.py:38-48 | The negative area of negated entries is the negated positive area. |
| Reflection.MirroredTwice | hjw_examples/sig.py:35-50 | Mirroring twice gives the bars back. |
| Reflection.MirroredColumns | hjw_examples/sig.py:36-48 | The mirrored bars' closes, difs and macds are the originals negated. |
| Screening.BreakOut | hjw_examples/day_third_buy_signal.py:57-72 | The loop over negative indices computes `BreakOutThreshold`. |
| Screening.TooManyDaysRaises | hjw_examples/day_third_buy_signal.py:66-69 | Asking for more days than there are bars raises IndexError. |
| Screening.BreakOutFromIff | hjw_examples/first_buy_signal.py:80-86 | With non-zero closes and the window in range, the scan raises nothing. It is true exactly when some move in the window, the first bar's excluded, exceeds the threshold. |
| Screening.BreakOutIff | hjw_examples/day_third_buy_signal.py:57-72 | `_break_out_threshold` is true exactly when one of the last moves exceeds the threshold. |
| Screening.RecentBars | hjw_examples/day_third_buy_signal.py:84 | A window that fits is the last `days` bars, and `days = 0` gives all bars. |
| Screening.AmountBelowLimit | hjw_examples/first_buy_signal.py:89-104 | True exactly when some recent bar's amount is below the threshold. |
| Screening.ZeroDaysExaminesAll | hjw_examples/day_third_buy_signal.py:84 | `days = 0` examines every bar. |
| Screening.WindowExaminesLastDays | hjw_examples/day_third_buy_signal.py:75-90 | A window that fits examines exactly the last `days` bars. |
| Decorate.Fibonacci | src/decorate.py:26-30 | `n` below 2, negative `n` included, is its own value. The value is positive from 1 on. |
| Decorate.FibonacciRecurrence | src/decorate.py:29-30 | From 2 on, each value is the sum of the two before. |
| Decorate.FibonacciMonotone | src/decorate.py:26-30 | From 1 on, the sequence never decreases. |
| Decorate.AdvanceFrom | src/decorate.py:26-30 | Walking forward from a consecutive pair lands on the right value. |
| Decorate.FibonacciByAdvance | src/decorate.py:26-30 | The recursion agrees with the forward walk from (0, 1). |
| Decorate.FibonacciCache.Call | src/decorate.py:25-30 | The cached call returns `fibonacci(n)`, stores it and keeps every entry correct. |
| Decorate.Timer | src/decorate.py:2-9 | The outcome is the wrapped call's. The elapsed time is reported exactly when the call returns, and is the difference of the clock reads. |
| Decorate.LogExecution | src/decorate.py:14-20 | The outcome is the wrapped call's. The log is the call line, then the returned line exactly when it returns. |
| Decorate.WrappersPassThrough | src/decorate.py:2-20 | Stacking the wrappers either way round does not change the outcome. |
| Decorate.FirstMismatchFrom | src/decorate.py:37-39 | The first zipped position whose argument is not of its type, with every earlier one passing. |
| Decorate.TypeCheckedIff | src/decorate.py:34-42 | TypeError when some zipped argument fails its type; the call itself when all pass. |
| Decorate.ExtraArgumentsUnchecked | src/decorate.py:37 | `zip` stops at the shorter list, so extra arguments are never checked. |
| Decorate.TypeCheck | src/decorate.py:34-42 | The loop over the zipped pairs computes `TypeChecked`. |

## Left out

- The czsc library is not part of this model. Its internals are opaque
  inputs: chart construction, strokes and fractals, `get_zs_seq`, stroke
  pivot validity, `check_gap_info`, the macd and moving-average caches, and
  `ma_is_up`. The chart is a record and the library a bundle of functions.
- The database layer (`database/history.py`, the ORM models and the
  connections) is a sequence of records. `buy_point_exists`,
  `check_duplicate` and `query_latest_buy_point` are functions of the
  records, as the classifiers call them. Their argument lists differ from
  `database/history.py`'s own `check_duplicate(symbol, check_date, days)`.
- Logging, `print`, `pprint`, `gc.collect()` and the signal key strings
  (`k1`, `k2`, `k3`) are not modelled. They do not affect outcomes.
- Floating point is exact real arithmetic. `np.isnan` in
  `ma_is_up_and_support` (src/sig/powers.py:150) never holds here.
- Powers.MaSupport: does not model the NaN branch of the moving-average
  test, because reals have no NaN.
- AnalyzeFeature.DriverAlwaysRaises: models `process_sequence` only up to
  the driver's guards and the first inclusion steps. The driver never gets
  past them, so the later fractal handling, `find_extreme_bi` excepted, is
  not modelled.
- Decorate.Timer: the clock reads `time.time()` are parameters, and the
  printed line is the elapsed value.
- Decorate.TypeCheck: `isinstance` is a parameter. Keyword arguments are
  passed through unchecked, as `zip(args, ...)` never sees them.
- Decorate.FibonacciCache.Call: `lru_cache` is an unbounded map. Python's
  recursion limit is not modelled.
- Dates are whole day numbers. This matches the `.date()` comparisons of
  `date_exceed_rawbars` and of the stroke filter. `is_strong_bot_fx` tests
  `(edt - latest_fx.dt).days < 15` on full datetimes
  (src/sig/utils.py:15), which floors the elapsed time. The model takes
  the difference of day numbers instead, which can be one larger when
  `edt` is earlier in its day than the fractal was in its own.
- Keyword defaults are parameters the caller passes. The defaults of
  `fx_dt_limit` are the constants `Signals.PzbcFxDtLimitDefault` (30, for
  `macd_pzbc_*`) and `Signals.FxDtLimitDefault` (5, for the others). The
  defaults of `pzbc_macd_bc_V231221` (`di=1, n=3, m=50`) are the `HjwCxt`
  constants. The default `threshold` of `stock_amount_below_limit`
  (100000000) is not a separate member.
- The `sig_xd.py`, `sig_dev.py` and `sig.py` copies of `date_exceed_rawbars`,
  `select_pzbc_bis`, `detect_lower_freq_pzbc`,
  `raw_bar_increase_within_limit`, `select_failed_conditions`,
  `get_xd_zs_seq` and `is_strong_bot_fx` are the `SigUtils` members.
  `CheckedPzbcImpliesUnchecked` relates the one copy that differs.

## Findings

| source | as written | input that shows it | evidently intended | confidence | as-written member | corrected member |
|---|---|---|---|---|---|---|
| src/sig/zs_elevate.py:157 | `last_xd == Direction.Down` compares a segment object with the direction enumeration, so the condition is always false | any chart that reaches the condition list, e.g. two segment pivots whose last holds one down segment of three strokes | `last_xd.direction == Direction.Down` | not executed | ZsElevate.XdNeverBuys | ZsElevate.XdIntendedFires |
