# F1 analytics core, modelled in Dafny

This project models the deterministic rules underneath an F1 race-analytics
dashboard. The dashboard itself is Streamlit pages, Plotly figures and calls
into fastf1, pandas, numpy and scipy. Underneath sits a layer of small
sequential rules over per-lap and per-sample records, and that layer is what
the model covers:

- the display formatters: lap, sector and gap times, position-change text,
  podium classes and tyre age;
- the four tyre-stint and pit-stop segmentations: the tyre-strategy plot, the
  race-strategy analyser, the pit-window analyser and the degradation
  analysis;
- the stint-number rule of the enhanced analytics;
- the position-change accounting of the racecraft and advanced analysers;
- rankings, leader selection, trend thresholds, min-max normalisation and
  top-five selection;
- the threshold and counting metrics of the mechanical and power analysers;
- the mini-sector dominance map;
- the driver roster manager, which fills and caches tables lazily.

Modelling conventions:

- A session's lap table is a sequence of `Laps.Lap` rows in table order.
  Each row carries a driver, a lap number, an optional lap time, a compound,
  an optional position, optional sector times and optional tyre life.
- A compound is `Tyre(name)` or `Missing`. `Missing` stands for a pandas NaN.
  Two compounds differ as pandas compares them, so NaN differs even from
  NaN (`Common.Differs`).
- Python `None` and NaN cells are `Option`s.
- Lap times are real seconds. The formatters work on whole milliseconds, so
  their three-decimal renderings are exact.
- Statistics taken from numpy and scipy are parameters with only the facts
  the code relies on: a mean of a constant series, a non-negative deviation,
  a slope.
- Telemetry of a driver's fastest lap is a `Telemetry.Trace` of optional
  channels (speed, throttle, brake, RPM and the X and Y coordinates).
- Each analyser's per-driver `try/except ... continue` is modelled as "skip
  that driver, keep the others".
- Loops in the source are `method`s with loop invariants. Each one is proved
  equal to a recursive specification function. The properties are lemmas
  about those functions.
- `DriverManager.DynamicDriverManager` is a class. Its cached tables are
  fields, which its methods fill on first use.

## Model

| member | source | states |
|---|---|---|
| Formatters.FormatLapTime | utils/formatters.py:9-28 | A missing value, or a duration of zero or less, gives "N/A", and a string is returned unchanged. A positive duration gives text of shape `M:SS.mmm` that reads back as exactly that many milliseconds. |
| Formatters.MinutesSeconds | utils/formatters.py:25-28 | `M:SS.mmm` of a positive duration is well formed (seconds below 60, no leading zero in the minutes) and parses back to the duration. |
| Formatters.LapTimeInjective | utils/formatters.py:25-28 | Two positive durations that format alike are equal. |
| Formatters.LapTimeMinutes | utils/formatters.py:25 | The minutes field is the whole number of minutes, `total // 60`. |
| Formatters.Fixed3 | utils/formatters.py:43 | `{s:.3f}` of whole milliseconds parses back to them, and its integer part is digits without a leading zero. |
| Formatters.FormatSectorTime | utils/formatters.py:30-43 | "N/A" for a missing or non-positive duration. Otherwise `SS.mmm` that parses back to the duration, exactly six characters below 100 s. |
| Formatters.FormatGapTime | utils/formatters.py:56-66 | "0.000" for a missing or zero gap; `+M:SS.mmm` from 60 s up; `+S.mmm` below a minute. A negative gap keeps its minus after the plus, as `+-S.mmm`. Each form parses back to the gap. |
| Formatters.PositionChangeText | utils/formatters.py:68-76 | The style is "success", "error" or "info" exactly when start - end is positive, negative or zero. The text is the matching arrow followed by the signed change, which parses back to start - end. |
| Formatters.LapTimeColorClass | utils/formatters.py:45-54 | Positions 1, 2 and 3 give fastest-lap, second-lap and third-lap, each in both directions, and every other position gives "". |
| Formatters.FormatTireAge | utils/formatters.py:78-83 | "New" exactly for a missing or zero age. Otherwise the text is `<n> laps`, whose number parses back to the age. |
| Numerals.NatToString | utils/formatters.py:83 | The decimal text of a natural number is all digits, with no leading zero. |
| Numerals.NatToStringRoundTrip | utils/formatters.py:83 | Parsing the decimal text of n gives n back. |
| Numerals.IntToStringRoundTrip | utils/formatters.py:72-74 | Parsing the signed decimal text of i gives i back. |
| Numerals.Pad2 | utils/formatters.py:28 | The two-digit zero-padded seconds field parses back to its value. |
| Numerals.Pad3 | utils/formatters.py:28 | The three-digit zero-padded milliseconds field parses back to its value. |
| Numerals.PadAtLeast2 | utils/formatters.py:43 | `06.3f` gives the whole seconds at least two digits. They are exactly two digits below 100 and parse back to the value. |
| Numerals.NatToStringLength | utils/formatters.py:43 | Numbers from 10 up have at least two digits, and from 100 up at least three. |
| Numerals.DigitValueOfDigit | utils/formatters.py:28 | A digit character reads back as its value. |
| TireStrategyPlot.PlotStints | utils/visualizations.py:103-134 | The stints of a driver's rows: there are no more stints than rows, and at least one exactly when the driver has a row. |
| TireStrategyPlot.GroupStints | utils/visualizations.py:109-134 | The grouping loop, with its running compound, start and previous lap, computes exactly `PlotStints`. |
| TireStrategyPlot.StintLapsIsSpan | utils/visualizations.py:121 | Every stint's `laps` is end_lap - start_lap + 1. |
| TireStrategyPlot.StintEnds | utils/visualizations.py:116-134 | The first stint starts on the first row's LapNumber, and the last stint ends on the last row's. |
| TireStrategyPlot.AdjacentStintsDiffer | utils/visualizations.py:115-124 | Consecutive stints have different compounds. |
| TireStrategyPlot.LastStintCompound | utils/visualizations.py:128-134 | The open stint is closed after the loop. The last stint has the last row's compound whenever that compound is not NaN. |
| TireStrategyPlot.StintsAreRuns | utils/visualizations.py:114-125 | Stint k is exactly the k-th maximal run of rows without a compound change: it starts at a change, or the first row, and ends on the row before the next change. |
| TireStrategyPlot.TotalLapsTelescopes | utils/visualizations.py:121 | With consecutive lap numbers, the stint lengths telescope to last lap - first lap + 1. |
| TireStrategyPlot.StintLapsSumToRows | utils/visualizations.py:121 | With consecutive lap numbers, the stint lengths sum to the number of rows. |
| TireStrategyPlot.SpanIsNotRowCount | utils/visualizations.py:121 | Rows on laps 1 and 3 on one compound give one stint of 3 laps from only 2 rows. `laps` is a span, not a row count. |
| TireStrategyPlot.StrategyBars | utils/visualizations.py:103-106 | Every bar group belongs to a listed driver, is non-empty and holds exactly the stints of that driver's own rows; there are no more groups than drivers. |
| TireStrategyPlot.BarsForDriversWithRows | utils/visualizations.py:103-106 | A driver gets bars exactly when it is listed and has rows. |
| Laps.LapsOf | utils/race_strategy.py:29 | `pick_drivers`: the rows of one driver, in table order, each one a row of the table. |
| Laps.LapsOfComplete | utils/race_strategy.py:29 | A row is among a driver's rows exactly when it is in the table with that driver. |
| Laps.Drivers | utils/race_strategy.py:25 | `laps['Driver'].unique()`: every listed driver has rows, and none is listed twice. |
| Laps.DriversComplete | utils/race_strategy.py:25 | A driver is listed exactly when it has rows. |
| Laps.MaxLapNumber | utils/race_strategy.py:64 | The highest lap number: at least every row's, and some row's own. |
| Laps.ChangeIndices | utils/race_strategy.py:37 | The rows where the compound changes: increasing indices, never the first row. |
| Laps.ChangeIndicesExactly | utils/race_strategy.py:37 | A row index is a change exactly when its compound differs from the previous row's. |
| Laps.FirstAt | utils/race_strategy.py:118-124 | The first row on a given lap, or None exactly when no row has that lap number. |
| Laps.FirstRowOf | utils/advanced_analytics.py:119-131 | The first row of a driver on a lap is None exactly when the driver has no row on that lap. Otherwise it is the first such row. |
| RaceStrategy.FindPitStops | utils/race_strategy.py:33-46 | The stop loop, with `prev_compound` starting as None, computes exactly `PitStops`. |
| RaceStrategy.PitStopsAtChanges | utils/race_strategy.py:33-46 | The stops are exactly the compound changes. Stop k is at change row b, with that row's lap number, the old compound of row b-1 and the new compound of row b. The first row is never a stop. |
| RaceStrategy.PitStopLapsAreRowLaps | utils/race_strategy.py:39 | Every stop's lap number is one of the driver's row lap numbers. |
| RaceStrategy.BuildStints | utils/race_strategy.py:49-72 | The stint loop and the final stint compute exactly `RaceStints`. |
| RaceStrategy.RaceStints | utils/race_strategy.py:49-72 | One closed stint per stop, plus the final stint when its start is at most the highest lap number. |
| RaceStrategy.StintsNumberedAndAdjacent | utils/race_strategy.py:50-61 | The stints are numbered 1, 2, ... in order. The first starts on lap 1, and each later one starts on the lap of the stop that ended the one before, one lap after that stint's end. |
| RaceStrategy.ClosedLengthsTelescope | utils/race_strategy.py:53-61 | The closed stints' lengths add up to the last stop's lap minus 1. |
| RaceStrategy.StintLengthsTelescope | utils/race_strategy.py:63-72 | With the final stint present, the stint lengths add up to the highest lap number, in whatever order the stop laps come. |
| RaceStrategy.FinalStintPresent | utils/race_strategy.py:63-79 | A driver with a stop, or with a highest lap number of at least 1, gets the final stint. So there is one stint more than stops, the lengths sum to the highest lap number, and the name is classified from stops + 1. |
| RaceStrategy.ClassifyStrategy | utils/race_strategy.py:83-94 | One, two and three stints are "No-stop", "One-stop" and "Two-stop", each in both directions. Every other count n gives `<n-1>-stop`, which reads back as n - 1, so no stints gives "-1-stop". |
| RaceStrategy.NoStopIffNoChange | utils/race_strategy.py:83-88 | "No-stop" holds exactly when the driver never changed compound. The same rule is at line 37 of that file. |
| RaceStrategy.AnalyzePitStopStrategies | utils/race_strategy.py:21-81 | One entry per distinct driver, in order of first appearance, holding the strategy of that driver's own rows. |
| RaceStrategy.PositionsIn | utils/race_strategy.py:114-128 | The positions of laps lo to hi that have a row, at most one per lap, and none for an empty range. |
| RaceStrategy.PositionsAround | utils/race_strategy.py:111-128 | The offset loop over -3..3 collects laps before the stop into `before` and laps after it into `after`. The stop lap itself goes into neither. |
| RaceStrategy.KnownValues | utils/race_strategy.py:132-133 | The positions as reals, element by element. |
| RaceStrategy.EffectOf | utils/race_strategy.py:131-141 | An entry exists exactly when both windows hold a lap. The position change is the mean position before minus the mean position after, and is NaN when a window holds a NaN position. It is "positive" exactly when that change is definitely above 0, and "negative" otherwise (a NaN change included). The magnitude is the absolute value of the change. |
| RaceStrategy.GainedAcrossStop | utils/race_strategy.py:131-141 | When every position after the stop is ahead of every position before it, the stop is "positive" with a change of at least one place. |
| RaceStrategy.DriverEffects | utils/race_strategy.py:107-141 | At most one effect per stop, in stop order. |
| RaceStrategy.EffectsLoop | utils/race_strategy.py:107-141 | The per-stop loop computes exactly `DriverEffects`. |
| RaceStrategy.UndercutMembers | utils/race_strategy.py:101-103 | A listed driver gets an entry exactly when it made a pit stop. |
| RaceStrategy.UndercutContents | utils/race_strategy.py:105-143 | Every entry holds the effects of that driver's own stops. |
| RaceStrategy.AnalyzeUndercut | utils/race_strategy.py:96-145 | The driver loop computes exactly `UndercutOf` over the distinct drivers, in order. |
| PitStrategyAnalysis.Known | utils/pit_strategy_analysis.py:29 | `Compound.dropna()`: the non-null compounds, in order, each a tyre. |
| PitStrategyAnalysis.LastKnown | utils/pit_strategy_analysis.py:31-41 | The running `current_compound` is None exactly when no non-null compound has been seen. Otherwise it is the last one seen. |
| PitStrategyAnalysis.DetectPitStops | utils/pit_strategy_analysis.py:30-41 | The stop loop computes exactly `WindowStops`. |
| PitStrategyAnalysis.MissingNeitherCountsNorResets | utils/pit_strategy_analysis.py:34 | A row with a null compound adds no stop and leaves the running compound as it was. |
| PitStrategyAnalysis.WindowStopsAreKnownChanges | utils/pit_strategy_analysis.py:33-41 | The number of stops is the number of changes in the sequence of non-null compounds. |
| PitStrategyAnalysis.RunState | utils/pit_strategy_analysis.py:50-57 | The stint-length loop's state: every closed length and the open one are at least 1. |
| PitStrategyAnalysis.StintLengths | utils/pit_strategy_analysis.py:48-58 | `stint_lengths`: every length is at least 1. It is empty when the driver has no non-null compound. |
| PitStrategyAnalysis.StintLengthsLoop | utils/pit_strategy_analysis.py:48-58 | The stint-length loop computes exactly `StintLengths`. |
| PitStrategyAnalysis.RunStateCoversRows | utils/pit_strategy_analysis.py:50-58 | The closed lengths plus the open one count every row once. |
| PitStrategyAnalysis.StintLengthsSumToRows | utils/pit_strategy_analysis.py:48-58 | With any non-null compound, the stint lengths sum to the number of rows. |
| PitStrategyAnalysis.RunCount | utils/pit_strategy_analysis.py:51-58 | There is one stint more than split rows. |
| PitStrategyAnalysis.SplitsAreTransitions | utils/pit_strategy_analysis.py:34-53 | With no null compound, the split rows of the length loop are the compound changes of the stop loop. |
| PitStrategyAnalysis.StintsAreStopsPlusOneWhenKnown | utils/pit_strategy_analysis.py:33-58 | With no null compound there is exactly one stint more than stops. |
| PitStrategyAnalysis.NullTransitionSplitsWithoutStop | utils/pit_strategy_analysis.py:34-53 | The two loops disagree around null compounds. NaN then SOFT gives two stints and no stop. SOFT, NaN, SOFT gives three stints and still no stop. |
| PitStrategyAnalysis.AvgStintIsRowsPerStint | utils/pit_strategy_analysis.py:60 | With any non-null compound, the average stint length is rows / stints. |
| PitStrategyAnalysis.ClassifyStops | utils/pit_strategy_analysis.py:83-94 | 0, 1 and 2 stops are "No-stop", "One-stop" and "Two-stop". 3 or more is "Multi-stop", and a negative count is "Unknown". Each holds in both directions. |
| PitStrategyAnalysis.PositionFactor | utils/pit_strategy_analysis.py:103-105 | Ten points per place gained from the first row to the last, with a missing position read as 10. The factor is positive exactly when places were gained, and never negative. |
| PitStrategyAnalysis.StrategyEffectiveness | utils/pit_strategy_analysis.py:96-115 | 50 for no laps. Never above 100. At least 50 when there are laps and no stint lengths. |
| PitStrategyAnalysis.EffectivenessMonotoneInGain | utils/pit_strategy_analysis.py:105-111 | A larger position factor never lowers the score. |
| PitStrategyAnalysis.PitWindowsEntries | utils/pit_strategy_analysis.py:22-75 | Every entry belongs to a listed driver with laps, and describes that driver's own stops, stint lengths, classification and score. |
| PitStrategyAnalysis.AnalyzePitWindows | utils/pit_strategy_analysis.py:18-81 | The driver loop computes exactly `PitWindowsOf`, skipping drivers without laps. |
| PitStrategyAnalysis.DriverWindows | utils/pit_strategy_analysis.py:28-74 | The per-driver body, with its pit-stop scan and stint-length loop, computes exactly that driver's pit-window entry. |
| PitStrategyAnalysis.Opportunities | utils/pit_strategy_analysis.py:228-234 | The count of reference laps where both drivers have known and different compounds, at most the reference lap count. |
| PitStrategyAnalysis.CountOpportunities | utils/pit_strategy_analysis.py:228-234 | The counting loop computes exactly `Opportunities`. |
| PitStrategyAnalysis.SameCompoundsNoOpportunity | utils/pit_strategy_analysis.py:232-234 | Drivers whose compounds never diverge have no opportunities. |
| PitStrategyAnalysis.OpportunityEntries | utils/pit_strategy_analysis.py:219-240 | The reference driver is never compared with itself. Every entry is a listed driver's own count, at most the reference driver's lap count, with a non-negative strategic variance. |
| PitStrategyAnalysis.AnalyzeOpportunities | utils/pit_strategy_analysis.py:210-242 | None exactly when the reference driver has no laps. Otherwise the entries for all other drivers, in order. |
| PredictiveAnalytics.ValidLaps | utils/predictive_analytics.py:33-36 | The valid laps are the driver's timed laps under 200 s. There are exactly as many as the laps meeting that test. |
| PredictiveAnalytics.QualifyingStatOf | utils/predictive_analytics.py:33-70 | A driver gets statistics exactly when at least three laps are valid. The entry counts those laps, has 0 < best <= average, and scores best + 0.5 consistency + 0.3 trend. |
| PredictiveAnalytics.StatOfValid | utils/predictive_analytics.py:42-70 | The statistics of three or more valid laps: the best time is positive and at most the average. The score is the weighted sum. |
| PredictiveAnalytics.BestIsFastestValidLap | utils/predictive_analytics.py:45 | The best time is under 200 s, is one of the driver's valid laps, and no valid lap of the driver is faster. |
| PredictiveAnalytics.QualifyingStatsMembers | utils/predictive_analytics.py:29-39 | A driver is in the table exactly when listed with at least three valid laps. |
| PredictiveAnalytics.Rank | utils/predictive_analytics.py:75-77 | Sorting by score and numbering from 1 is a permutation of the entries. Scores are non-decreasing, and entry k gets position k + 1. |
| PredictiveAnalytics.PredictionRanksQualifiers | utils/predictive_analytics.py:72-79 | The prediction is None exactly when no driver has three valid laps. Otherwise every qualifying entry is ranked once, by score, from position 1. |
| PredictiveAnalytics.CollectQualifyingStats | utils/predictive_analytics.py:29-70 | The driver loop computes exactly `QualifyingStats`. |
| PredictiveAnalytics.PredictQualifying | utils/predictive_analytics.py:20-79 | The method computes exactly `QualifyingPredictionOf`, which is None for missing or empty data. |
| PredictiveAnalytics.Segments | utils/predictive_analytics.py:103-129 | The runs of equal compound: none exactly for no rows, and the last run ends at the last row. |
| PredictiveAnalytics.SegmentsPartition | utils/predictive_analytics.py:108-119 | The runs partition the rows: they start at row 0, each is non-empty, each starts where the previous one ends, and the last one ends at the end. |
| PredictiveAnalytics.SegmentsConstant | utils/predictive_analytics.py:109 | Every row of a run has the compound of the run's first row. |
| PredictiveAnalytics.SegmentsDiffer | utils/predictive_analytics.py:109-119 | Where one run ends and the next begins, the compound changes. |
| PredictiveAnalytics.SegmentsAreMaximalRuns | utils/predictive_analytics.py:108-119 | Together: the runs are exactly the maximal constant-compound runs. |
| PredictiveAnalytics.LongSegments | utils/predictive_analytics.py:110-122 | Every kept stint is one of the runs, with at least three laps. |
| PredictiveAnalytics.LongSegmentsExactly | utils/predictive_analytics.py:110-122 | A run is kept exactly when it has at least three laps, inside the loop and for the final run alike. |
| PredictiveAnalytics.LongSegmentsWithin | utils/predictive_analytics.py:111-123 | Every kept stint is a slice of at least three rows within the driver's rows. |
| PredictiveAnalytics.DegradationStints | utils/predictive_analytics.py:104-129 | The grouping loop, with its running compound and `stint_start`, computes exactly `LongSegments`. |
| PredictiveAnalytics.StintTimes | utils/predictive_analytics.py:134 | A stint's lap times, each the time of the matching row and positive. |
| PredictiveAnalytics.StintEntry | utils/predictive_analytics.py:143-153 | A stint's record has the driver, the compound of its first row (a tyre), a length of at least 3, and 0 < best <= average. |
| PredictiveAnalytics.TyreRows | utils/predictive_analytics.py:94-98 | The rows the analysis reads are the driver's own, each timed and with a known compound. |
| PredictiveAnalytics.StintEntries | utils/predictive_analytics.py:132-153 | One record per kept stint, each for the driver, on a tyre, at least three laps long. |
| PredictiveAnalytics.DriverDegradation | utils/predictive_analytics.py:93-153 | No records below five rows. Otherwise one record per kept stint. |
| PredictiveAnalytics.DegradationEntriesValid | utils/predictive_analytics.py:93-153 | Every record is of a listed driver with at least five rows, on a known compound, over at least three laps. |
| PredictiveAnalytics.AnalyzeTireDegradation | utils/predictive_analytics.py:85-162 | The driver loop computes exactly `DegradationAnalysis`, which is None without data or without any kept stint. |
| PredictiveAnalytics.WindowSize | utils/predictive_analytics.py:185-187 | `min(5, n // 3)` is at most 5 and at most n / 3. It is at least 2 exactly when n >= 6. |
| PredictiveAnalytics.PerformanceIndex | utils/predictive_analytics.py:200 | 0 when the rolling deviation is not positive. Otherwise its sign is the sign of time - mean, and index * deviation == time - mean. |
| PredictiveAnalytics.PointIndicesExactly | utils/predictive_analytics.py:192-193 | A lap yields a point exactly when both rolling values exist there. |
| PredictiveAnalytics.PointsAtIndices | utils/predictive_analytics.py:192-201 | The k-th point is the lap at the k-th such position, with its own number, time and rolling values. |
| PredictiveAnalytics.DriverEvolution | utils/predictive_analytics.py:178-187 | A driver with fewer than six timed laps gives no points. The five-lap minimum and the window of at least 2 together need six. |
| PredictiveAnalytics.EvolutionPoints | utils/predictive_analytics.py:192-201 | The per-lap loop computes exactly `PointsUpTo`. |
| PredictiveAnalytics.EvolutionNeedsSixLaps | utils/predictive_analytics.py:172-201 | Every point is of a listed driver with six or more timed laps. |
| PredictiveAnalytics.TrackEvolution | utils/predictive_analytics.py:164-205 | The driver loop computes exactly `EvolutionTracking`. |
| EnhancedAnalytics.Gains | utils/enhanced_analytics.py:90-91 | The steps where the position number drops: none with fewer than two positions, and fewer than the positions otherwise. |
| EnhancedAnalytics.GainsNone | utils/enhanced_analytics.py:90-91 | No gain is counted exactly when the positions never improve from one lap to the next. |
| EnhancedAnalytics.OvertakeScore | utils/enhanced_analytics.py:83-94 | 0 with fewer than two known positions. Otherwise gains / positions, in [0, 1), so the `min(1.0, ...)` cap never binds. It is positive exactly when a place was gained. |
| EnhancedAnalytics.SectorColumn | utils/enhanced_analytics.py:102 | One sector column without its missing cells, every time positive. |
| EnhancedAnalytics.SectorColumnEmpty | utils/enhanced_analytics.py:102 | A column is empty exactly when no row has that sector time. |
| EnhancedAnalytics.SectorTimes | utils/enhanced_analytics.py:99-102 | The three columns one after another, every time positive. |
| EnhancedAnalytics.SectorTimesEmpty | utils/enhanced_analytics.py:104-105 | There are no sector times exactly when no row has any sector time. |
| EnhancedAnalytics.SectorDominance | utils/enhanced_analytics.py:96-110 | 0 without sector times. Otherwise the mean is positive, and score * mean == the 25th percentile. The score is positive exactly when the percentile is. |
| EnhancedAnalytics.Efficiency | utils/enhanced_analytics.py:136 | `max(0, 1 - abs(slope))` lies in [0, 1]. It is 1 exactly for a flat stint, and 0 exactly once the slope is at least 1 s per lap either way. |
| EnhancedAnalytics.CompoundRows | utils/enhanced_analytics.py:126 | The rows on one compound, each on it and timed. |
| EnhancedAnalytics.CompoundEfficiency | utils/enhanced_analytics.py:122-137 | A compound yields no score exactly when it is NaN or has fewer than three laps. Otherwise it yields one score in [0, 1]. |
| EnhancedAnalytics.EfficiencyScores | utils/enhanced_analytics.py:120-137 | At most one score per compound, each in [0, 1]. |
| EnhancedAnalytics.EfficiencyScoresEmpty | utils/enhanced_analytics.py:122-139 | There is no score exactly when no listed compound scores. |
| EnhancedAnalytics.TireEfficiencyRange | utils/enhanced_analytics.py:112-141 | The efficiency lies in [0, 1]. With a compound column, there is no score exactly when no compound of the rows scores, and then it is the 0.5 fallback. |
| EnhancedAnalytics.TireEfficiency | utils/enhanced_analytics.py:115-139 | The compound loop computes exactly `TireEfficiencyOf`. |
| EnhancedAnalytics.WeightedIndexWithin | utils/enhanced_analytics.py:52-59 | The weights 0.25, 0.20, 0.25, 0.10, 0.10 and 0.10 sum to one. So the index lies between the lowest and highest component, and equals a component shared by all six. |
| EnhancedAnalytics.Consistency | utils/enhanced_analytics.py:40 | `1 / (1 + std)` lies in (0, 1], and is 1 exactly for a zero spread. |
| EnhancedAnalytics.PaceQuality | utils/enhanced_analytics.py:42 | `1 / mean * 100` is positive, and quality * mean == 100. |
| EnhancedAnalytics.EntryOf | utils/enhanced_analytics.py:37-76 | The record of three or more timed rows: their count, 0 < best <= average, consistency in (0, 1], overtake score in [0, 1), and the index as the weighted combination of the components. |
| EnhancedAnalytics.DriverPerformance | utils/enhanced_analytics.py:29-79 | A driver gets a record exactly when it has at least three timed laps. The record counts them and carries the tyre efficiency of those rows. |
| EnhancedAnalytics.DriverPerformanceBounds | utils/enhanced_analytics.py:40-49 | Every component of a record is in its range: overtakes in [0, 1), consistency in (0, 1], tyre efficiency in [0, 1], and best lap <= average lap. |
| EnhancedAnalytics.PerformanceTableMembers | utils/enhanced_analytics.py:29-35 | A driver has a row exactly when requested and with at least three timed laps. |
| EnhancedAnalytics.CalculateDriverPerformanceIndex | utils/enhanced_analytics.py:25-81 | The driver loop computes exactly `PerformanceTable`. |
| EnhancedAnalytics.PerformanceOf | utils/enhanced_analytics.py:30-78 | The per-driver body gives no entry with fewer than three timed laps, and otherwise exactly that driver's performance entry. |
| EnhancedAnalytics.Before | utils/enhanced_analytics.py:296-298 | The rows the loop of `_get_stint_number` visits before its `break`: all on earlier laps, and the next row, if any, is not. |
| EnhancedAnalytics.AsWrittenStintOf | utils/enhanced_analytics.py:290-303 | The rule as written starts the running compound at the queried lap's own compound. The result lies between 1 and 1 + the rows visited, and is 1 when no row is visited. |
| EnhancedAnalytics.GetStintNumberAsWritten | utils/enhanced_analytics.py:292-303 | The loop as written computes exactly `AsWrittenStintOf`. |
| EnhancedAnalytics.StintNumberOvercounts | utils/enhanced_analytics.py:293-301 | On SOFT, SOFT, MEDIUM, MEDIUM the rule as written puts the fourth lap in stint 3. The intended numbering puts it in stint 2. |
| EnhancedAnalytics.StintOf | utils/enhanced_analytics.py:290-303 | Corrected rule: one more than the compound changes up to and including the lap. At least 1, and at most the rows up to that lap. |
| EnhancedAnalytics.GetStintNumber | utils/enhanced_analytics.py:292-303 | The corrected loop computes exactly `StintOf`. |
| EnhancedAnalytics.StintOfCountsChanges | utils/enhanced_analytics.py:290-303 | With increasing lap numbers, the first lap is in stint 1. From one lap to the next, the number rises by one exactly at a compound change. |
| EnhancedAnalytics.FuelLoad | utils/enhanced_analytics.py:281 | `1 - i / n` lies in (0, 1], and is 1 exactly at the first timed lap. |
| EnhancedAnalytics.PacePointsUpTo | utils/enhanced_analytics.py:275-283 | At most one point per timed lap, each for the driver, with a fuel load in (0, 1] and a stint from 1. The stint is the corrected number (see "## Left out"). |
| EnhancedAnalytics.DriverPace | utils/enhanced_analytics.py:263-283 | No points below five timed laps, and never more points than timed laps. Points carry the corrected stint number. |
| EnhancedAnalytics.PacePointsValid | utils/enhanced_analytics.py:259-288 | Every point belongs to a requested driver with five or more timed laps, with a fuel load in (0, 1] and a stint from 1. |
| EnhancedAnalytics.PacePoints | utils/enhanced_analytics.py:275-283 | The per-lap loop computes exactly `PacePointsUpTo`, with the corrected stint number. |
| EnhancedAnalytics.AnalyzeRacePaceEvolution | utils/enhanced_analytics.py:259-288 | The driver loop computes exactly `PaceEvolutionOf`, whose Stint column is the corrected number. |
| RacecraftAnalysis.Changes | utils/racecraft_analysis.py:37-39 | One change `p[i-1] - p[i]` per consecutive pair of positions. |
| RacecraftAnalysis.GainedLessLost | utils/racecraft_analysis.py:37-50 | Places gained minus places lost telescopes to the net change, first position - last position. |
| RacecraftAnalysis.GainedNone | utils/racecraft_analysis.py:41-42 | No place is gained exactly when the positions never improve. |
| RacecraftAnalysis.LostNone | utils/racecraft_analysis.py:43-44 | No place is lost exactly when the positions never get worse. |
| RacecraftAnalysis.PositionChanges | utils/racecraft_analysis.py:33-44 | The loop records every change and accumulates exactly the places gained and the places lost. |
| RacecraftAnalysis.RacecraftScore | utils/racecraft_analysis.py:62 | In [0, 100], and 50 without an overtake. With one, it is 100 exactly for zero volatility and 0 exactly from a volatility of 10. |
| RacecraftAnalysis.DriverOvertaking | utils/racecraft_analysis.py:24-63 | A driver gets a record exactly when it has at least two recorded positions. |
| RacecraftAnalysis.OvertakingEntryFacts | utils/racecraft_analysis.py:37-62 | Overtakes - lost == net change == first - last position. Each count is 0 exactly when the positions never move that way. Aggression is non-negative, and 0 exactly when the position never changes. The score lies in [0, 100], and is 50 without an overtake. |
| RacecraftAnalysis.OvertakingOf | utils/racecraft_analysis.py:23-63 | The per-driver step computes exactly `DriverOvertaking`. |
| RacecraftAnalysis.AnalyzeOvertakingPatterns | utils/racecraft_analysis.py:18-69 | The driver loop keeps the records of the requested drivers in order, skipping the others. |
| RacecraftAnalysis.OvertakingTableMembers | utils/racecraft_analysis.py:22-30 | Every requested driver with two or more positions has its record in the table, and every record is of a requested driver. |
| RacecraftAnalysis.CollectLapTimes | utils/racecraft_analysis.py:82-85 | The lap-time loop collects exactly the timed rows' times, in order. |
| RacecraftAnalysis.MiddleThird | utils/racecraft_analysis.py:96-98 | `t[n//3 : 2n//3]` holds n/3 or n/3 + 1 laps and is non-empty from two laps on. |
| RacecraftAnalysis.DefensiveScore | utils/racecraft_analysis.py:101 | `max(0, 100 - 10 cv)` lies in [0, 100]. It is 100 exactly for cv == 0, and 0 exactly from cv == 10. |
| RacecraftAnalysis.DriverDefensive | utils/racecraft_analysis.py:77-109 | A record exactly with five or more timed laps. It has that lap count, a non-negative consistency, a score in [0, 100] that is 100 exactly for a zero deviation, and pressure handling at most 100. |
| RacecraftAnalysis.DefensiveOf | utils/racecraft_analysis.py:76-109 | The per-driver step computes exactly `DriverDefensive`. |
| RacecraftAnalysis.AnalyzeDefensiveDriving | utils/racecraft_analysis.py:71-115 | The driver loop keeps the records of the requested drivers in order. |
| RacecraftAnalysis.DefensiveTableBounds | utils/racecraft_analysis.py:87-101 | Every record covers five or more laps and scores in [0, 100]. |
| RacecraftAnalysis.AbsDiffs | utils/racecraft_analysis.py:211-212 | `diff().abs()` without its leading NaN: one non-negative value per consecutive pair. |
| RacecraftAnalysis.Smoothness | utils/racecraft_analysis.py:211-218 | Defined exactly from two samples on. It is never above 100. |
| RacecraftAnalysis.SmoothnessConstant | utils/racecraft_analysis.py:211-218 | A trace that never moves is perfectly smooth, 100. |
| RacecraftAnalysis.SmoothnessOfPercentages | utils/racecraft_analysis.py:211-218 | A trace of percentages has a smoothness in [0, 100]. |
| RacecraftAnalysis.DrivingStyle | utils/racecraft_analysis.py:193-204 | A record exactly when the driver has rows and the fastest lap's telemetry has both Throttle and Brake. |
| RacecraftAnalysis.DrivingStyleBounds | utils/racecraft_analysis.py:207-219 | Both aggressions and the style score lie in [0, 100]. Each aggression is 0 exactly when no sample passes its bound (90 and 80). The style score is 0 exactly when both are. Throttle smoothness exists exactly from two samples and lies in [0, 100]. |
| AdvancedAnalytics.DriverConsistency | utils/advanced_analytics.py:22-40 | A report exactly with three or more timed laps, counting them. |
| AdvancedAnalytics.DriverConsistencyBounds | utils/advanced_analytics.py:33-37 | 0 < fastest <= mean <= slowest, and every timed lap lies between the fastest and the slowest. |
| AdvancedAnalytics.DriverConsistencyScore | utils/advanced_analytics.py:35-38 | The coefficient of variation is non-negative. The score `1 / (1 + std)` lies in (0, 1], and is 1 exactly for a zero deviation. |
| AdvancedAnalytics.ReciprocalBounds | utils/advanced_analytics.py:38 | `1 / (1 + s)` lies in (0, 1] for s >= 0, and is 1 exactly at 0. |
| AdvancedAnalytics.CompoundsOf | utils/advanced_analytics.py:48 | `Compound.unique()`: no duplicates, and exactly the compounds that occur in the rows. |
| AdvancedAnalytics.RowsWith | utils/advanced_analytics.py:52 | The rows on one compound. |
| AdvancedAnalytics.DegradationOf | utils/advanced_analytics.py:49-70 | An entry exactly for a known compound on at least two laps. It has that compound and lap count, the first and last row's times as initial and final pace, and a total degradation wherever both paces exist, with initial + total == final. |
| AdvancedAnalytics.CompoundDegradation | utils/advanced_analytics.py:49-70 | The per-compound step computes exactly `DegradationOf`. |
| AdvancedAnalytics.AnalyzeTireDegradation | utils/advanced_analytics.py:42-72 | The compound loop keeps the entries of the driver's distinct compounds, in order of first appearance. |
| AdvancedAnalytics.DegradationTableMembers | utils/advanced_analytics.py:48-70 | A compound run on two or more laps has its entry in the table. Every entry covers two or more laps, exactly the laps on its compound. |
| AdvancedAnalytics.EverComparedExactly | utils/advanced_analytics.py:107-131 | A driver has a record exactly when some lap in 1..n compares it with the lap before. |
| AdvancedAnalytics.NeverComparedEmpty | utils/advanced_analytics.py:122-146 | A driver that no lap compares has an empty log. |
| AdvancedAnalytics.EventAtSound | utils/advanced_analytics.py:133-146 | A lap adds at most one log entry. That entry is for that lap, with a positive number of places whose direction and size are the lap's position change. |
| AdvancedAnalytics.EventsSound | utils/advanced_analytics.py:107-146 | Every log entry records a compared lap in 2..n with its own change, and the entries are in increasing lap order. |
| AdvancedAnalytics.EventsComplete | utils/advanced_analytics.py:107-146 | Every compared lap with a non-zero change is logged. |
| AdvancedAnalytics.GainedInAppend | utils/advanced_analytics.py:133-146 | A gained entry adds its places to the gained total only, and a lost entry to the lost total only. |
| AdvancedAnalytics.Unchanged | utils/advanced_analytics.py:110-122 | A lap that does not compare a driver leaves its record as it was. |
| AdvancedAnalytics.CompareDriver | utils/advanced_analytics.py:119-146 | One driver's step on lap n: when the lap compares it, its entry becomes its record after lap n. Otherwise the map is unchanged. |
| AdvancedAnalytics.CompareDrivers | utils/advanced_analytics.py:115-146 | The loop over the distinct drivers of lap n updates exactly those drivers, to their records after lap n. |
| AdvancedAnalytics.CompareLap | utils/advanced_analytics.py:108-146 | After lap n, the map holds exactly the drivers compared so far, each with its record after lap n. |
| AdvancedAnalytics.AnalyzeOvertakingPatterns | utils/advanced_analytics.py:100-155 | An empty session gives no records. Otherwise exactly the drivers compared on some lap get a record. Each record holds its full log, gained and lost totals, and net change = gained - lost. |
| AdvancedAnalytics.FirstPass | utils/advanced_analytics.py:107-146 | The lap loop creates a record exactly for the drivers compared on some lap, each holding its log and gained/lost totals up to the last lap. |
| RealtimeInsights.TrendOf | utils/realtime_insights.py:101 | Below -0.1 is Improving, above 0.1 is Declining, and anything in between is Stable, each in both directions. |
| RealtimeInsights.TrendOrdered | utils/realtime_insights.py:101 | A larger value never reads as a better trend. Negating a value swaps Improving and Declining and keeps Stable. |
| RealtimeInsights.Window | utils/realtime_insights.py:77 | `min(5, n)` is at most n and at most 5, and equals one of them. |
| RealtimeInsights.Head | utils/realtime_insights.py:82 | `head(k)`: the first `Window` laps. |
| RealtimeInsights.Tail | utils/realtime_insights.py:81 | `tail(k)`: the last `Window` laps. |
| RealtimeInsights.MeanConstant | utils/realtime_insights.py:81-85 | The mean of a constant sequence is that constant. |
| RealtimeInsights.WindowMeanBounds | utils/realtime_insights.py:81-82 | The mean of a window lies between the slowest and fastest lap of the whole run. |
| RealtimeInsights.DriverMomentum | utils/realtime_insights.py:65-103 | An entry exactly with five or more timed laps, counting them. |
| RealtimeInsights.MomentumOfTimes | utils/realtime_insights.py:74-103 | The entry's direction is the trend of its momentum score. Volatility and trend strength are non-negative. |
| RealtimeInsights.MomentumWindow | utils/realtime_insights.py:77-85 | Five timed laps or more always give a window of five, so the `recent_laps < 3` skip never fires. The score is the mean of the last five minus the mean of the first five, both positive. |
| RealtimeInsights.MomentumBounds | utils/realtime_insights.py:85 | The score lies within the spread between the fastest and the slowest lap. |
| RealtimeInsights.MomentumConstant | utils/realtime_insights.py:85-101 | A driver lapping at a constant pace has score 0 and is Stable. |
| RealtimeInsights.MomentumAnalysis | utils/realtime_insights.py:57-112 | None without data. Otherwise None exactly when no driver qualifies, and else the entries sorted by momentum score, a permutation of the qualifying drivers' entries. |
| RealtimeInsights.MomentumMembers | utils/realtime_insights.py:65-72 | Every driver with five or more timed laps has its entry. |
| RealtimeInsights.MomentumOnlyQualified | utils/realtime_insights.py:71-72 | Only drivers with five or more timed laps have an entry. |
| RealtimeInsights.SectorRows | utils/realtime_insights.py:123-128 | The driver's rows that have all three sector times. |
| RealtimeInsights.SectorSample | utils/realtime_insights.py:134-141 | One sector of those rows, every value positive. |
| RealtimeInsights.DriverSectors | utils/realtime_insights.py:122-151 | A summary exactly when the driver has a row with all three sectors. |
| RealtimeInsights.SummaryTimes | utils/realtime_insights.py:134-141 | Each best sector time is at most that sector's average. |
| RealtimeInsights.SectorSummaryBounds | utils/realtime_insights.py:134-141 | Of positive times, the minimum is positive and at most the mean. |
| RealtimeInsights.Relative | utils/realtime_insights.py:163-164 | `(v - fastest) / fastest * 100` is non-negative exactly when v is no faster than the fastest, and 0 exactly when equal to it. |
| RealtimeInsights.SectorDeltas | utils/realtime_insights.py:159-164 | One row per summary, keeping it and adding its six deltas. |
| RealtimeInsights.SectorDeltaFacts | utils/realtime_insights.py:159-164 | No delta is negative. A delta is 0 exactly for the column's fastest value, and some driver has 0 in every column. |
| RealtimeInsights.SectorDominanceHeatmap | utils/realtime_insights.py:114-170 | None without data or sector columns, and None exactly when no driver has a full row. Otherwise the delta table of the summaries. |
| RealtimeInsights.FirstMinIndex | utils/realtime_insights.py:235 | `min(..., key=...)` returns the first element with the smallest key: its key is at most every key, and every earlier key is larger. |
| RealtimeInsights.DriverConsistency | utils/realtime_insights.py:214-230 | An entry exactly with three or more timed laps, holding that count and the deviation of those laps. |
| RealtimeInsights.MostConsistentDriver | utils/realtime_insights.py:206-239 | None without data or without a qualifying driver. Otherwise the first entry with the smallest deviation. |
| RealtimeInsights.ConsistencyTable | utils/realtime_insights.py:212-228 | The loop over the unique drivers collects exactly the qualifying consistency entries, in order of first appearance. |
| RealtimeInsights.DriverPace | utils/realtime_insights.py:249-266 | An entry exactly with three or more timed laps. It holds the mean of the last `min(5, n)` laps, a window of 3 to 5, and that mean lies between the fastest and slowest lap. |
| RealtimeInsights.CurrentPaceLeader | utils/realtime_insights.py:241-275 | None without data or without a qualifying driver. Otherwise the first entry with the smallest recent pace. |
| RealtimeInsights.PaceTable | utils/realtime_insights.py:247-266 | The loop over the unique drivers collects exactly the qualifying recent-pace entries, in order of first appearance. |
| RealtimeInsights.PaceLeaderIsFastest | utils/realtime_insights.py:255-271 | The leader has three or more timed laps, and its recent pace is no slower than that of any driver with three timed laps. |
| RealtimeInsights.DriverTrend | utils/realtime_insights.py:301-321 | A trend exactly with five or more timed laps. Its direction is the trend of its correlation, its latest lap is the last timed lap, and its best lap is the fastest, positive and at most the latest. |
| RealtimeInsights.LivePerformanceTrends | utils/realtime_insights.py:293-326 | None exactly without data. Otherwise exactly the drivers with five or more timed laps, each with its own trend. |
| RealtimeInsights.TrendTable | utils/realtime_insights.py:299-322 | The loop over the unique drivers gives a trend exactly to those with five or more timed laps, each being that driver's own trend. |
| RealtimeInsights.SameDrivers | utils/realtime_insights.py:28 | The drivers listed are the drivers of the rows. |
| RealtimeInsights.SessionCounts | utils/realtime_insights.py:27-28 | The lap count is the row count. The active drivers are the distinct drivers: at most the rows, and 0 exactly for an empty table. |
| CompositePerformance.Accelerations | utils/composite_performance.py:41-44 | Speed change over distance change at each sample, one per sample. The first is 0, the NaN that `fillna(0)` replaces. |
| CompositePerformance.AccelerationFactor | utils/composite_performance.py:56-60 | Always positive. It falls back to 0.1 exactly when no acceleration is positive, and otherwise lies between the smallest and largest positive acceleration. |
| CompositePerformance.FlaggedTimeBounds | utils/composite_performance.py:47-65 | With time running forward, the braking or handling time is non-negative and at most the span of the lap's samples. |
| CompositePerformance.LowSpeed | utils/composite_performance.py:63-64 | A sample is in the low-speed mask exactly when below 70% of the mean speed. |
| CompositePerformance.Denominator | utils/composite_performance.py:68 | `max(x, 1)` is at least 1 and at least x, and equals one of them. |
| CompositePerformance.CompositeIndex | utils/composite_performance.py:68-69 | index * denominator == speed factor * acceleration factor. It is positive when both factors are. |
| CompositePerformance.RecordOf | utils/composite_performance.py:36-93 | A record carries the session's abbreviation and team. Speed factor, acceleration factor and index are positive. Top speed is at least the mean speed, and speed consistency is at most 1. |
| CompositePerformance.DriverRecord | utils/composite_performance.py:22-34 | A driver gets a record exactly when its fastest lap yields car data, with a positive index. |
| CompositePerformance.CalculateCompositePerformance | utils/composite_performance.py:18-99 | The driver loop keeps the records of the requested drivers in order, skipping the others. |
| CompositePerformance.CollectRecords | utils/composite_performance.py:22-97 | The driver loop computes exactly `Collect` of the rows, for any row rule. |
| CompositePerformance.RecordsPositive | utils/composite_performance.py:68-69 | Every record in the table has a positive index. |
| CompositePerformance.BarOrder | utils/composite_performance.py:103-107 | None for an empty table. Otherwise a permutation of the records, sorted by index from largest to smallest. |
| CompositePerformance.TopFive | utils/composite_performance.py:266 | `nlargest(5, ...)` keeps min(5, n) records, all from the table. |
| CompositePerformance.TopFiveOrdered | utils/composite_performance.py:266-268 | The top five are ordered best first. |
| CompositePerformance.TopFiveLargest | utils/composite_performance.py:266 | The top five are a sub-multiset of the records, and no record left out has a larger index than one kept. |
| CompositePerformance.Normalize | utils/composite_performance.py:256-261 | One normalised value per value of the column. |
| CompositePerformance.NormalizedValue | utils/composite_performance.py:259 | `(v - min) / (max - min)` lies in [0, 1]. It is 0 exactly at the minimum and 1 exactly at the maximum. |
| CompositePerformance.NormalizedOrder | utils/composite_performance.py:259 | Normalising keeps the order of two values. |
| CompositePerformance.NormalizeFacts | utils/composite_performance.py:256-259 | Over a column whose extremes differ, every value lands in [0, 1]. 0 and 1 are reached exactly at the column's minimum and maximum, and the order of the column is kept. |
| CompositePerformance.NormalizeConstant | utils/composite_performance.py:258-261 | A constant column normalises to 0.5 everywhere. |
| CompositePerformance.MetricColumn | utils/composite_performance.py:250-256 | One value of the metric per record. |
| CompositePerformance.NormalizeMetrics | utils/composite_performance.py:253-261 | The loop over the five metrics replaces each column by its normalisation. |
| CompositePerformance.RowOf | utils/composite_performance.py:271 | The first row with the driver's abbreviation, as `iloc[0]` takes it. |
| CompositePerformance.Series | utils/composite_performance.py:268-274 | One radar series: the five normalised metrics of the row, closed by repeating the first. |
| CompositePerformance.PerformanceRadar | utils/composite_performance.py:244-282 | None exactly for an empty table. Otherwise one closed trace per top-five record, in order, holding that driver's normalised metrics. |
| CompositePerformance.RadarTraces | utils/composite_performance.py:266-282 | One trace per top record, in order, each that driver's normalised series. |
| CompositePerformance.SeriesBounded | utils/composite_performance.py:256-261 | Every radar value lies in [0, 1], whether the column's extremes differ or not. |
| MechanicalAnalysis.BandsPartition | utils/mechanical_analysis.py:37-51 | The three speed bands (below 100, 100 up to 200, 200 and above) are pairwise disjoint, cover every sample, and their counts add up to the number of samples. |
| MechanicalAnalysis.Consistency | utils/mechanical_analysis.py:39-53 | `100 - std/mean*100` is at most 100, and equals 100 exactly when the band's deviation is 0. |
| MechanicalAnalysis.LowSpeedConsistency | utils/mechanical_analysis.py:37-41 | 50 when no sample is below 100. Otherwise at most 100, and 100 exactly when the low band's deviation is 0. |
| MechanicalAnalysis.MediumSpeedEfficiency | utils/mechanical_analysis.py:44-48 | 50 when the medium band is empty. Otherwise `mean/150*100` lies in [200/3, 400/3). |
| MechanicalAnalysis.HighSpeedStability | utils/mechanical_analysis.py:51-55 | 50 when no sample reaches 200. Otherwise at most 100, and 100 exactly when the high band's deviation is 0. |
| MechanicalAnalysis.DegradationRate | utils/mechanical_analysis.py:66-71 | 0 for fewer than ten timed laps. From ten laps on, its sign is the sign of the second half's mean minus the first half's, with the halves split at `len // 2`. |
| MechanicalAnalysis.DegradationConstant | utils/mechanical_analysis.py:66-71 | Constant lap times degrade at rate 0. |
| MechanicalAnalysis.GripOf | utils/mechanical_analysis.py:25-81 | A driver gets a grip record exactly when it has laps and its fastest lap has a Speed channel. The record names the driver. Its score is the mean of the three band figures, and its degradation is taken over the timed laps. |
| MechanicalAnalysis.GripScoreBounds | utils/mechanical_analysis.py:39-58 | Low-speed grip and high-speed stability are at most 100, medium-speed balance is below 400/3, and the mechanical score is below 1000/9. |
| MechanicalAnalysis.AnalyzeMechanicalGrip | utils/mechanical_analysis.py:19-87 | The driver loop computes the grip table: the records of the requested drivers, in order, skipping the others. |
| MechanicalAnalysis.GripTableExactly | utils/mechanical_analysis.py:23-33 | A requested driver with laps and a Speed channel has its record in the table, and every record belongs to a requested driver. The same rule is at line 73 of that file. |
| MechanicalAnalysis.EngineStress | utils/mechanical_analysis.py:105-113 | Lies in [0, 100]. 50 when the RPM channel is missing or empty; otherwise 0 exactly when no sample exceeds the 0.9 quantile. |
| MechanicalAnalysis.BrakeStress | utils/mechanical_analysis.py:116-124 | Lies in [0, 100]. 50 when the Brake channel is missing or empty; otherwise 0 exactly when no sample exceeds 80. |
| MechanicalAnalysis.ThrottleStress | utils/mechanical_analysis.py:127-135 | Lies in [0, 100]. 50 when the Throttle channel is missing or empty; otherwise 0 exactly when no sample is at 100. |
| MechanicalAnalysis.Reliability | utils/mechanical_analysis.py:139 | `max(0, 100 - avg)` is never negative, and at most 100 for a non-negative average stress. |
| MechanicalAnalysis.StressOf | utils/mechanical_analysis.py:95-148 | A driver gets a stress record exactly when it has laps and a fastest lap with telemetry. The record names the driver, and its overall stress is the mean of the three stresses. |
| MechanicalAnalysis.StressBounds | utils/mechanical_analysis.py:137-139 | Overall stress lies in [0, 100], and so reliability is exactly 100 minus it, also in [0, 100]. |
| MechanicalAnalysis.AnalyzeComponentStress | utils/mechanical_analysis.py:89-154 | The driver loop computes the stress table: the records of the requested drivers, in order. |
| MechanicalAnalysis.StressTableBounds | utils/mechanical_analysis.py:137-147 | Every record in the stress table has reliability in [0, 100], equal to 100 minus its overall stress. |
| PowerAnalysis.AccelerationZones | utils/power_analysis.py:45-46 | Counts the samples with throttle above 80 and speed above the previous sample's. The first sample, whose `diff()` is NaN, never counts, so there are at most n - 1 zones. |
| PowerAnalysis.AccelerationZonesNone | utils/power_analysis.py:45-46 | No sample counts when speed never increases, or when throttle never exceeds 80. |
| PowerAnalysis.ScaledPercentage | utils/power_analysis.py:42 | A ratio in (0, 1] times a throttle percentage gives a value in [0, 100], and 0 exactly when the throttle is 0. |
| PowerAnalysis.FractionAtMostOne | utils/power_analysis.py:42 | `avg_speed / max_speed` lies in (0, 1]. |
| PowerAnalysis.PowerEfficiency | utils/power_analysis.py:34-42 | `(avg/max) * (avg_throttle/100) * 100` lies in [0, 100], and is 0 exactly when the mean throttle is 0. |
| PowerAnalysis.PowerOf | utils/power_analysis.py:25-57 | A driver gets a record exactly when it has laps and the fastest lap carries both Speed and Throttle. The record names the driver. Full-throttle share and efficiency lie in [0, 100], mean speed is positive and at most the top speed, and there are fewer acceleration zones than samples. |
| PowerAnalysis.AnalyzePowerDelivery | utils/power_analysis.py:19-63 | The driver loop computes the power table: the records of the requested drivers, in order. |
| PowerAnalysis.PowerTableOrder | utils/power_analysis.py:23-48 | The table lists drivers in the order they were requested, and a requested driver with a record appears in it. |
| TrackDominance.Linspace | utils/track_dominance.py:87-96 | `np.linspace(0, 1, n)` has n points. |
| TrackDominance.LinspaceEnds | utils/track_dominance.py:96 | The points start at 0, end at 1 (from two points on), and all lie in [0, 1]. |
| TrackDominance.LinspaceIncreasing | utils/track_dominance.py:96 | The points strictly increase. |
| TrackDominance.SegmentsDisjoint | utils/track_dominance.py:105 | No distance lies in two different mini-sectors' half-open masks. |
| TrackDominance.EndOfLapInNoSegment | utils/track_dominance.py:105 | Distance 1.0, the last resampled point, lies in no mini-sector, because every mask is open at its upper end. |
| TrackDominance.Segments | utils/track_dominance.py:98 | `range(num_minisectors - 1)`: the indices 0 to n-2, and none when n is 0. |
| TrackDominance.Distance | utils/track_dominance.py:87 | One normalised distance per resampled point. |
| TrackDominance.Keys | utils/track_dominance.py:104 | The drivers of the entries, in order. The same rule is at line 138 of that file. |
| TrackDominance.TrackEntries | utils/track_dominance.py:55-88 | Each entry holds a present driver's trace, as resampled. |
| TrackDominance.TrackEntriesOrder | utils/track_dominance.py:53-88 | The dictionary's keys are the requested drivers that have X, Y and Speed, in first-request order, each once. |
| TrackDominance.TrackEntriesExactly | utils/track_dominance.py:55-62 | A driver has an entry exactly when requested, present in the telemetry, and carrying X, Y and Speed. No driver has two. |
| TrackDominance.PrepareTelemetry | utils/track_dominance.py:53-88 | The preparation loop builds exactly those entries. |
| TrackDominance.Masked | utils/track_dominance.py:105-110 | The mask selects at most as many samples as there are. |
| TrackDominance.MaskedEmpty | utils/track_dominance.py:105-108 | The mask selects nothing exactly when no distance lies in [lo, hi). |
| TrackDominance.FastestIsFirstMaximum | utils/track_dominance.py:99-118 | There is no winner exactly when no entry has a mean speed above -1 in the mini-sector. Otherwise the winner is an entry with a strictly greater mean than every earlier entry and at least the mean of every later one: the first maximum, since the update uses a strict `>`. |
| TrackDominance.FastestInSegment | utils/track_dominance.py:99-118 | The inner loop over the entries computes that winner. |
| TrackDominance.DominanceTraces | utils/track_dominance.py:98-133 | One trace per mini-sector that has a winner, in mini-sector order. |
| TrackDominance.EmptySegmentNoTrace | utils/track_dominance.py:107-121 | A mini-sector where no entry has a sample draws no trace. |
| TrackDominance.NoDataNoEntries | utils/track_dominance.py:49-50 | Without telemetry there are no entries. |
| TrackDominance.CreateTrackDominanceMap | utils/track_dominance.py:44-150 | None exactly when no requested driver has usable telemetry. Otherwise the figure holds the winners' traces, plus an outline from the first entry's coordinates exactly when one is requested. |
| DriverManager.ReadCount | utils/driver_manager.py:22-41 | The loop reads at most all of the session's drivers, and all of them when no error is raised. |
| DriverManager.GetOr | utils/driver_manager.py:31-37 | `dict.get(key, default)`: the stored value when the key is present, the default otherwise. |
| DriverManager.TrimStart | utils/driver_manager.py:31 | Drops exactly the leading whitespace: the result is a suffix, what was dropped is all whitespace, and the result does not start with whitespace. |
| DriverManager.TrimEnd | utils/driver_manager.py:31 | Drops exactly the trailing whitespace, in the same three senses. |
| DriverManager.Strip | utils/driver_manager.py:31 | `str.strip()` leaves neither leading nor trailing whitespace. |
| DriverManager.StripSlice | utils/driver_manager.py:31 | The stripped name is a slice of the input with only whitespace cut off on either side. |
| DriverManager.StripIdempotent | utils/driver_manager.py:31 | Stripping twice is stripping once. |
| DriverManager.DetailsOf | utils/driver_manager.py:30-38 | The abbreviation and broadcast name fall back to the driver code, the team to "Unknown" and a missing colour to "#808080". A colour present as None stays None. The full name is first and last name, joined by a space and stripped. |
| DriverManager.Put | utils/driver_manager.py:30 | Assigning a key keeps the table's key order in step with its keys, and updates that one value. |
| DriverManager.FillEntries | utils/driver_manager.py:26-38 | A code has details exactly when it is one of the drivers read and the session has data for it, and then its details are those of its data. |
| DriverManager.DriverInfoEntries | utils/driver_manager.py:17-43 | The info table holds exactly the drivers read before any error, each with data, and holds every driver with data when there is no error. |
| DriverManager.TeamMappingsOf | utils/driver_manager.py:49-52 | The team mapping has the same codes as the info table, each mapped to its team name. |
| DriverManager.NormalizeColor | utils/driver_manager.py:65-68 | The colour always starts with "#". A colour with "#" is kept, a non-empty one without is prefixed, and an empty or missing one becomes "#808080". |
| DriverManager.ColorsFromFirstDriver | utils/driver_manager.py:58-70 | A team has a colour exactly when some driver is on it. The colour is the normalised colour of its first driver in table order. |
| DriverManager.DisplayNamesOf | utils/driver_manager.py:74-82 | Each code maps to its abbreviation. |
| DriverManager.DisplayNameFallback | utils/driver_manager.py:32 | A driver's display name is its session abbreviation, or its code when the session has none. The same rule is at line 79 of that file. |
| DriverManager.MembersOf | utils/driver_manager.py:93-98 | One member record per code, in order, built from its details. |
| DriverManager.GroupByTeam | utils/driver_manager.py:86-100 | A team appears exactly when one of its drivers does. Its list is the member records of its drivers in table order. |
| DriverManager.ListedOnce | utils/driver_manager.py:89-98 | With distinct codes, a team's list holds each driver once, and a driver is listed under a team exactly when it is on that team. |
| DriverManager.DynamicDriverManager.constructor | utils/driver_manager.py:12-15 | A new manager holds the session and has nothing cached. |
| DriverManager.DynamicDriverManager.GetDriverInfo | utils/driver_manager.py:17-43 | Returns the session's info table and caches it. A cached table is returned unchanged, and the team mapping cache is untouched. |
| DriverManager.DynamicDriverManager.GetTeamMappings | utils/driver_manager.py:45-54 | Returns the team mapping of the session's info table and caches it. A cached mapping is returned unchanged. |
| DriverManager.MapTeams | utils/driver_manager.py:49-52 | The loop over the info table builds exactly the driver-to-team mapping `TeamMappingsOf`, one key per driver code. |
| DriverManager.DynamicDriverManager.GetTeamColors | utils/driver_manager.py:56-70 | Returns the team colours of the info table, which is cached afterwards. |
| DriverManager.DynamicDriverManager.GetDriverDisplayNames | utils/driver_manager.py:72-82 | Returns the display names of the info table, which is cached afterwards. |
| DriverManager.DynamicDriverManager.GetDriversByTeam | utils/driver_manager.py:84-100 | Returns the info table's drivers grouped by team, and the info table is cached afterwards. |
| Sorting.SortBy | utils/predictive_analytics.py:76 | `sort_values` on a key: the result is sorted by the key and is a permutation of the input. |
| Common.Unique | utils/predictive_analytics.py:29 | `Series.unique()` holds each value of the column once, and exactly the values of the column. |
| Common.UniqueCount | utils/realtime_insights.py:28 | The number of unique values is the size of the set of values. |
| Common.Percentage | utils/power_analysis.py:38 | `count / total * 100` is non-negative, at most 100 for a count within the total, and 0 exactly for a count of 0. |

## Left out

- Session loading, caching and the fastf1 calls (`pick_drivers`, `pick_fastest`, `get_telemetry`, `get_driver`) are inputs. A lap table is a sequence of rows, and the fastest-lap telemetry is a function from driver to an optional trace.
- Streamlit, FastAPI and Plotly are not modelled. Colours, layouts, hover texts and legend traces are not part of any figure model. A figure model keeps only the data that decides which traces exist and what values they carry.
- numpy, pandas and scipy statistics are parameters with only the facts the code relies on. These are std/var, quantile, percentile, median, `linregress`/`polyfit` slopes, `corrcoef` and rolling windows. No property depends on their values beyond those facts.
- TrackDominance.TrackEntries: the cubic and linear interpolation of `interpolate_track_coordinates` and `interp1d` is the `Resampler` parameter. Its fallback on error is not modelled.
- `f"{x:.1f}%"` and `f"{x:.2f}"` renderings of analyser results are not modelled. The model keeps the numbers they format. Only the formatters in `utils/formatters.py` are modelled as strings.
- Floating point is modelled as exact reals, and formatter durations as whole milliseconds. Rounding artefacts such as 59.9996 s rendering as "60.000" are outside the model.
- Exceptions: each analyser's per-driver `try/except ... continue` is "no record for that driver". The fastest-lap parameter returns None where the source would raise or skip. In `DriverManager` the exception is the session's optional failure index, and the drivers read before it are kept.
- Exceptions that end a whole analysis are not modelled, and neither is the `print`/`st.error` they trigger. Examples are the outer `try` of the track dominance map, or a `KeyError` on a missing column.
- DriverManager.Strip: `str.strip()` removes all Unicode whitespace. The model strips only the ASCII whitespace characters: tab, line feed, vertical tab, form feed, carriage return, the separators 0x1C-0x1F and the space. Other whitespace, such as U+00A0 or U+3000, is kept in the full name.
- Telemetry.Trace and CompositePerformance.Car restrict the input domain. A trace's speeds are all positive and its throttle values all lie in [0, 100]. A car's speeds are all positive. The source accepts any telemetry, such as a sample at zero speed, and the model says nothing about such inputs.
- Telemetry channels hold no NaN samples. A missing channel is None, and an empty telemetry table is excluded by the trace type. `dropna()` on stress channels is therefore the identity.
- MechanicalAnalysis.Consistency: pandas gives a NaN std for a one-sample speed band, and so a NaN band score and grip score. The `Deviation` parameter always returns a number, so the model never produces that NaN.
- EnhancedAnalytics.PacePointsUpTo: each point's stint is the corrected `StintOf`. The source calls `_get_stint_number` as written at utils/enhanced_analytics.py:282, so from the second stint on its `Stint` values can be larger. For example, on SOFT, SOFT, MEDIUM, MEDIUM it gives 3 where the model gives 2. `AsWrittenStintOf` is that as-written number.
- EnhancedAnalytics.PacePoints: the per-lap loop uses the corrected `GetStintNumber`, not `GetStintNumberAsWritten`, so its `Stint` values are the corrected ones, as for `PacePointsUpTo`.
- EnhancedAnalytics.DriverPace: its points carry the corrected stint number, not the one `_get_stint_number` returns as written.
- EnhancedAnalytics.AnalyzeRacePaceEvolution: the Stint column of its table is the corrected number, not the one `_get_stint_number` returns as written. Every other column is as the source computes it.
- DataFrame `sort_values` is not stable. The model sorts with a stable insertion sort, which gives one of the orders pandas may produce for ties.
- RealtimeInsights: a driver's laps are taken in table order. `sort_values('LapNumber')` (utils/realtime_insights.py:69, 253, 305) is treated as the identity, as it is for a session's lap table.
- RealtimeInsights.SessionCounts: only the lap and driver counts of the live dashboard are modelled. Session duration, fastest lap and average lap time are single library calls.
- EnhancedAnalytics.EntryOf: the entry is keyed by the requested driver code, not by `get_driver(...)['Abbreviation']`. Its team name, a plain lookup, is not carried. Speed consistency is a parameter, because the lap model does not carry the intermediate speed channel.
- EnhancedAnalytics and PredictiveAnalytics: the chart builders and the formula-only reports (brake, stress, downforce, tyre performance, comparative and weather analysis) are not part of this model.
- `calculate_sector_dominance` in `utils/advanced_analytics.py` is not part of this model. Sector dominance is modelled in `EnhancedAnalytics.SectorDominance` and `RealtimeInsights.SectorDeltas`.
- TrackDominance: the team colour lookups (`DRIVER_TEAMS`, `TEAM_COLORS`) and the legend traces are not modelled. A trace carries the winning driver and the mini-sector.
- AdvancedAnalytics: the overtaking dictionary is a map, so its insertion order is not modelled. PowerAnalysis, MechanicalAnalysis and the other per-driver tables keep their list order.
- RaceStrategy: `pick_driverss` at utils/race_strategy.py:29, 223 and 266 is a typo that would raise. The model takes the intended per-driver lap sequence.
- The UI and server files, data loading, sector analysis and constants have no rules of the kind modelled here and are not part of this model.

## Findings

| source | as written | input that shows it | evidently intended | confidence | as-written member | corrected member |
|---|---|---|---|---|---|---|
| utils/enhanced_analytics.py:290-305 | `_get_stint_number` starts its running compound at the queried lap's own compound, then counts a new stint at every earlier lap whose compound differs from it. A lap on a later compound therefore counts the change back to the first compound as well. | Laps 1-4 on SOFT, SOFT, MEDIUM, MEDIUM: lap 4 is numbered stint 3. | Stint 2: one plus the compound changes up to the queried lap, with the running compound started at the first lap. | not executed | EnhancedAnalytics.StintNumberOvercounts | EnhancedAnalytics.StintOfCountsChanges |

`EnhancedAnalytics.GetStintNumberAsWritten` is the loop as written, proved equal to `EnhancedAnalytics.AsWrittenStintOf`. `EnhancedAnalytics.StintNumberOvercounts` shows that it gives 3 where the stint is 2. `EnhancedAnalytics.GetStintNumber` is the corrected loop, proved equal to `EnhancedAnalytics.StintOf`. Lemma `EnhancedAnalytics.StintOfCountsChanges` proves that the corrected number starts at 1 and goes up by one exactly at each compound change. The race-pace points use the corrected number. "## Left out" names each member this affects.
