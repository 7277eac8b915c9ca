# Bias removal for a seasonal precipitation forecast (RSM2008 Thiessen series)

This project models the core of `remove_bias_pr_thiessen_rsm2008_climate_model.py`. For one basin
and one run month, that script does the following:

1. It resolves the three forecast months that follow the run date and the date strings that name the
   files (`define_dates`).
2. It cuts the forecast's daily Thiessen precipitation series into three windows, one per lead month,
   and takes each window's NaN-excluding total.
3. It builds 30-year (1981–2010) climatologies of those totals, one from the model hindcasts and one
   from the observations.
4. It maps each forecast lead total by nearest-rank empirical quantile mapping (`closest`,
   `eqmres_bias_correction`).
5. It spreads each corrected total back over the lead's days in the forecast's own daily proportions,
   and concatenates the three leads.

The forecast and hindcast file names are built from the run's date strings. The observations are one
archive file, named from constants and the basin, and it is read between two days that the date
strings give. The model replaces each read with an injected function that returns a series, or
`None` when the read fails. A daily series is a
`seq<Option<real>>`, and `None` stands for NaN. Arithmetic is over exact reals.

Modules:
- `Outcomes`: `Option`, `Result`, and the errors that stop one basin's correction. In the script each
  of these errors is an uncaught exception, so it also ends the run over the remaining basins.
- `Calendar`: adding months with wrap-around, the Gregorian month length, `YYYYMMDD` formatting
  and parsing, `define_dates`, and the window lengths the loaders compute.
- `Climatology`: clamped Python slicing, `np.nansum`, the forecast import, and the two 30-year
  climatology loops. The loops are methods with loop invariants, proved against a
  reference function.
- `QuantileMapping`: sorting, `closest` as a method with its three loops, and the mapping itself.
- `Driver`: method selection, the disaggregation, and the whole per-basin block. The block is a
  method that runs the steps in the program's order and is proved equal to a specification
  function. The lemmas about that function state when each outcome occurs.

Where the code behaves differently from its own documentation or from the obvious intent, the model
follows the code:
- The window lengths use the run year, or the historical year, for every lead month, not the year
  of that lead month. A run across a year end therefore cuts February by the earlier year's leap
  status (`Calendar.RunYearWindowExample`).
- A failed observation read is not caught, so it stops the run.
- A failed hindcast read turns the lists into a NaN scalar, and the later `len` of that scalar
  raises. If no hindcast file opened at all, the `close` after the loop raises first, before the
  observations are read.
- The pass-through branch (any method tag other than `eqm_des`) copies an undefined name, so it
  always fails.

## Model

| member | source | states |
|---|---|---|
| Calendar.IsLeapYear | remove_bias_pr_thiessen_rsm2008_climate_model.py:112-113 | the Gregorian leap rule of `calendar.isleap` (divisible by 4, and not by 100 unless by 400); `DaysInMonth` and `SameMonthLength` state its effect |
| Calendar.DaysInMonth | remove_bias_pr_thiessen_rsm2008_climate_model.py:112-113 | a month has 28 to 31 days; it has 29 exactly for February of a Gregorian leap year and 28 exactly for February of any other year |
| Calendar.AddMonths | remove_bias_pr_thiessen_rsm2008_climate_model.py:102-104 | adding k months gives month `((m-1+k) mod 12)+1`; the year goes up by one exactly when m+k > 12; the month count 12*y+m grows by k |
| Calendar.Decimal | remove_bias_pr_thiessen_rsm2008_climate_model.py:110-113 | `'{0}'.format(n)`: a non-empty string of decimal digits whose value is n; a four-digit year gives four digits (`DecimalFourDigits`) |
| Calendar.Pad2 | remove_bias_pr_thiessen_rsm2008_climate_model.py:106-113 | `'{0:02d}'` and `strftime("%m")` for n < 100: exactly two decimal digits whose value is n |
| Calendar.FormatYmd | remove_bias_pr_thiessen_rsm2008_climate_model.py:110-113 | `'{0}{1:02d}{2:02d}'.format(y, m, d)`: the digits of the year followed by two-digit month and day; `FormatParseRoundTrip` states that it parses back |
| Calendar.ParseYmd | remove_bias_pr_thiessen_rsm2008_climate_model.py:258-259 | `strptime(s, "%Y%m%d")` accepts only eight digits that form a valid Gregorian date |
| Calendar.FormatParseRoundTrip | remove_bias_pr_thiessen_rsm2008_climate_model.py:110-113 | formatting a valid date of a four-digit year as `YYYYMMDD` and parsing it back gives the same year, month and day |
| Calendar.MonthAbbrev | remove_bias_pr_thiessen_rsm2008_climate_model.py:100 | the run month's abbreviation is three lower-case letters |
| Calendar.MonthAbbrevDistinct | remove_bias_pr_thiessen_rsm2008_climate_model.py:100 | different months have different abbreviations, so the abbreviation names its month |
| Calendar.DefineDates | remove_bias_pr_thiessen_rsm2008_climate_model.py:91-115 | it fails exactly for years before 1900 and for runs whose third lead passes year 9999; otherwise the three month fields are two-digit months (m mod 12)+1, ((m+1) mod 12)+1 and ((m+2) mod 12)+1 |
| Calendar.DefineDatesRoundTrip | remove_bias_pr_thiessen_rsm2008_climate_model.py:110-113 | the three date strings have eight digits and parse back to the run date, the first day of lead 1 and the last day of lead 3; that last day is the 29th exactly for a November run that precedes a leap year |
| Calendar.WindowLengths | remove_bias_pr_thiessen_rsm2008_climate_model.py:131-133 | `calendar.monthrange(year, int(fcst_monK))[1]` for the three month strings, in the loader's year; `WindowLengthsOfRun` gives its closed form and `WindowLengthsVersusCalendar` its relation to the calendar |
| Calendar.SameMonthLength | remove_bias_pr_thiessen_rsm2008_climate_model.py:131-133 | a month has the same length in two years unless it is February and exactly one of the years is a leap year |
| Calendar.WindowLengthsOfRun | remove_bias_pr_thiessen_rsm2008_climate_model.py:190-192 | the lengths parsed from the month strings equal the calendar lengths of the three lead months, counted in the loader's year |
| Calendar.WindowLengthsVersusCalendar | remove_bias_pr_thiessen_rsm2008_climate_model.py:131-133 | each forecast window is as long as its calendar month, except exactly for a February whose year differs in leap status from the run year |
| Calendar.RunYearWindowExample | remove_bias_pr_thiessen_rsm2008_climate_model.py:131-133 | a November 2015 run names a file that ends on 29 February 2016, but its third window is cut to 28 days |
| Climatology.Slice | remove_bias_pr_thiessen_rsm2008_climate_model.py:149-151 | `s[lo:hi]` clamps both bounds to the length and keeps the elements from `lo` onward |
| Climatology.SplitWindows | remove_bias_pr_thiessen_rsm2008_climate_model.py:149-151 | the three slices `s[0:a]`, `s[a:a+b]` and `s[a+b:a+b+c]`; `SplitWindowsContiguous` states that they are contiguous and how long they are |
| Climatology.SplitWindowsContiguous | remove_bias_pr_thiessen_rsm2008_climate_model.py:149-151 | the windows `[0,a)`, `[a,a+b)` and `[a+b,a+b+c)` concatenate to the series' first a+b+c entries, or to the whole series when it is shorter; on a long enough series they have lengths a, b and c |
| Climatology.NanSum | remove_bias_pr_thiessen_rsm2008_climate_model.py:208-210 | `np.nansum`: the sum of the non-NaN values, 0 for an empty or all-NaN slice; `NanSumBounds` and `NanSumAppend` state its properties |
| Climatology.LeadTotals | remove_bias_pr_thiessen_rsm2008_climate_model.py:208-210 | the `nansum` of each of the three windows; `ReadHindcastYear` and `ReadObservedYear` are proved to compute it |
| Climatology.NanSumBounds | remove_bias_pr_thiessen_rsm2008_climate_model.py:208-210 | an all-NaN slice sums to 0; a slice with no negative value sums to at least 0 |
| Climatology.NanSumAppend | remove_bias_pr_thiessen_rsm2008_climate_model.py:407-408 | a property of `np.nansum`: the NaN-excluding sum of a concatenation is the sum of the parts' sums |
| Climatology.ImportForecast | remove_bias_pr_thiessen_rsm2008_climate_model.py:118-166 | the lengths use the run year; the flag is set exactly when the file was read; an unreadable file gives three empty windows; a read file's leads are its slices `[0:a]`, `[a:a+b]` and `[a+b:a+b+c]` and concatenate to its clamped prefix |
| Climatology.AccumulateMeaning | remove_bias_pr_thiessen_rsm2008_climate_model.py:204-216 | after n years the lists exist exactly when every one of those years was read; they then hold n entries, and entry i is year i's totals |
| Climatology.AccumulateNext | remove_bias_pr_thiessen_rsm2008_climate_model.py:204-216 | proof step, one unfolding of the loop: one year either appends its totals or loses the lists |
| Climatology.AccumulateFails | remove_bias_pr_thiessen_rsm2008_climate_model.py:212-216 | once a year has failed, the lists stay lost for every later year |
| Climatology.HindcastPrefixNext | remove_bias_pr_thiessen_rsm2008_climate_model.py:204-216 | proof step, one unfolding of the loop: one hindcast year appends that year's three totals, or turns the lists into NaN |
| Climatology.OpenedBeforeMeaning | remove_bias_pr_thiessen_rsm2008_climate_model.py:203-218 | the loop's flag after n years is set exactly when one of those n hindcast files opened |
| Climatology.AllLoadsOpenOne | remove_bias_pr_thiessen_rsm2008_climate_model.py:204-205 | when every hindcast year can be read, some hindcast file was opened |
| Climatology.HindcastClimatology | remove_bias_pr_thiessen_rsm2008_climate_model.py:219-223 | the three hindcast lists `import_hind_model_data` returns, or None when a year's file could not be read and the lists became NaN; `HindcastClimatologyMeaning` states when it exists and what it holds |
| Climatology.HindcastClimatologyMeaning | remove_bias_pr_thiessen_rsm2008_climate_model.py:182-221 | the hindcast climatology exists exactly when all 30 files load; each list then has 30 entries, and entry i is the NaN-excluding total of year 1981+i's window |
| Climatology.ReadHindcastYear | remove_bias_pr_thiessen_rsm2008_climate_model.py:187-210 | one iteration's result is the reference year's totals; it is present exactly when that year's file loads |
| Climatology.BuildHindcastClimatology | remove_bias_pr_thiessen_rsm2008_climate_model.py:178-221 | the loop yields the reference climatology, which exists exactly when all 30 years load, has 30 entries per lead, and has year 1981+i's window totals as entry i; it also reports whether any file opened |
| Climatology.ObservedPrefixNext | remove_bias_pr_thiessen_rsm2008_climate_model.py:256-267 | proof step, one unfolding of the loop: one observation year appends that year's three totals, or stops the run |
| Climatology.ObservedPrefixFails | remove_bias_pr_thiessen_rsm2008_climate_model.py:256 | one failed observation read leaves no climatology |
| Climatology.ObservedClimatology | remove_bias_pr_thiessen_rsm2008_climate_model.py:270-274 | the three observed lists `import_hind_obs_data` returns, or None when a read raised; `ObservedClimatologyMeaning` states when it exists and what it holds |
| Climatology.ObservedClimatologyMeaning | remove_bias_pr_thiessen_rsm2008_climate_model.py:239-272 | the observed climatology exists exactly when the archive can be read for each of the 30 years; each list then has 30 entries, and entry i is the total of year 1981+i's window, read from the first day of lead 1 to the last day of lead 3 |
| Climatology.ReadObservedYear | remove_bias_pr_thiessen_rsm2008_climate_model.py:241-267 | one iteration parses the date strings back and yields the reference year's totals |
| Climatology.BuildObservedClimatology | remove_bias_pr_thiessen_rsm2008_climate_model.py:235-274 | the loop yields the reference climatology, which exists exactly when every archive read succeeds, with 30 entries per lead and year 1981+i's totals as entry i |
| QuantileMapping.Insert | remove_bias_pr_thiessen_rsm2008_climate_model.py:297 | inserting into a sorted sequence keeps it sorted and adds exactly that value |
| QuantileMapping.PrependSorted | remove_bias_pr_thiessen_rsm2008_climate_model.py:297 | a value no greater than every element of a sorted sequence can be put in front of it |
| QuantileMapping.Sort | remove_bias_pr_thiessen_rsm2008_climate_model.py:297-299 | `np.sort` is ascending and a permutation of its input |
| QuantileMapping.SortedHeadIsMin | remove_bias_pr_thiessen_rsm2008_climate_model.py:297-299 | two sorted arrangements of the same values start with the same value |
| QuantileMapping.SortedUnique | remove_bias_pr_thiessen_rsm2008_climate_model.py:297-299 | two sorted sequences with the same multiset of values are equal |
| QuantileMapping.Distances | remove_bias_pr_thiessen_rsm2008_climate_model.py:278-280 | `aux` holds, at each index, the absolute difference between the target and that reference value |
| QuantileMapping.LastArgMin | remove_bias_pr_thiessen_rsm2008_climate_model.py:281-282 | on a non-empty list, the reference index has the least distance, and no later index attains it |
| QuantileMapping.LastArgMinUnique | remove_bias_pr_thiessen_rsm2008_climate_model.py:282 | at most one index is the last index of the minimum |
| QuantileMapping.ClosestIndex | remove_bias_pr_thiessen_rsm2008_climate_model.py:277-284 | there is no index exactly for an empty list, where `np.min` raises; otherwise the index is the last one of least distance |
| QuantileMapping.Closest | remove_bias_pr_thiessen_rsm2008_climate_model.py:277-284 | the three loops return nothing exactly for an empty list; otherwise they return an index in range of least distance with no later index as close, which is the reference one |
| QuantileMapping.ClosestAt | remove_bias_pr_thiessen_rsm2008_climate_model.py:277-284 | a target that occurs among the references is at distance zero from the reference at the index `closest` picks |
| QuantileMapping.ClosestTieExample | remove_bias_pr_thiessen_rsm2008_climate_model.py:282 | on `[10,20,20,30]` with target 20 the index is 2 |
| QuantileMapping.Eqm | remove_bias_pr_thiessen_rsm2008_climate_model.py:287-310 | a result is an element of `obs`; it fails exactly with an empty hindcast, and otherwise exactly when the rank `closest` picks is at least the number of observations; it succeeds whenever the hindcast is non-empty and no longer than the observations |
| QuantileMapping.EqmResBiasCorrection | remove_bias_pr_thiessen_rsm2008_climate_model.py:297-308 | the computation with `closest` run as its loops equals the reference mapping |
| QuantileMapping.EqmPermutationInvariant | remove_bias_pr_thiessen_rsm2008_climate_model.py:297-299 | reordering the hindcast or the observations does not change the result |
| QuantileMapping.EqmIdentity | remove_bias_pr_thiessen_rsm2008_climate_model.py:297-308 | when the hindcast and the observations are the same multiset and the forecast occurs in it, the forecast maps to itself |
| QuantileMapping.EqmRank | remove_bias_pr_thiessen_rsm2008_climate_model.py:297-308 | a successful mapping returns the sorted observation at the index `closest` picks among the sorted hindcast, and that index is in range |
| QuantileMapping.UpperStaysCloser | remove_bias_pr_thiessen_rsm2008_climate_model.py:280 | of two references a <= b, if b is at least as close to a target, then it is also at least as close to any larger target |
| QuantileMapping.LastArgMinMonotone | remove_bias_pr_thiessen_rsm2008_climate_model.py:277-284 | on a sorted reference list, a larger target never gets a smaller closest index |
| QuantileMapping.EqmMonotone | remove_bias_pr_thiessen_rsm2008_climate_model.py:297-308 | the mapping preserves the order of forecast totals |
| Driver.SelectMethod | remove_bias_pr_thiessen_rsm2008_climate_model.py:385-386 | the method is the table's entry at index month-1; the lookup fails exactly when the table is shorter than the month number |
| Driver.Rescale | remove_bias_pr_thiessen_rsm2008_climate_model.py:399 | `(d / total) * corrected` for one day: NaN stays NaN, and a zero total gives NaN; `RescaledValue` states its contribution to a sum |
| Driver.Disaggregate | remove_bias_pr_thiessen_rsm2008_climate_model.py:398-405 | the output is as long as the lead; a day is NaN exactly when it was NaN or the total is zero; every other day is scaled by corrected/total |
| Driver.DisaggregateLast | remove_bias_pr_thiessen_rsm2008_climate_model.py:399 | rescaling all days, then dropping the last, is rescaling all but the last; the last rescaled day is the last day rescaled |
| Driver.RescaledValue | remove_bias_pr_thiessen_rsm2008_climate_model.py:399 | for a non-zero total, a day's rescaled value is its value times corrected/total, and a NaN day stays out of the sum |
| Driver.RescaledSumMeaning | remove_bias_pr_thiessen_rsm2008_climate_model.py:399-405 | the day-by-day sum of rescaled values is the NaN-excluding sum of the rescaled lead |
| Driver.RescaledSumScaled | remove_bias_pr_thiessen_rsm2008_climate_model.py:399-405 | for a non-zero divisor, adding up `(d / total) * corrected` over the days is adding up each day times corrected/total |
| Driver.ScaledDaySumFactor | remove_bias_pr_thiessen_rsm2008_climate_model.py:399-405 | multiplying every non-NaN day by one factor multiplies the NaN-excluding sum by that factor |
| Driver.DisaggregateSum | remove_bias_pr_thiessen_rsm2008_climate_model.py:399-405 | for a non-zero divisor, the rescaled days sum to the days' own sum times corrected/total |
| Driver.DisaggregatePreservesTotal | remove_bias_pr_thiessen_rsm2008_climate_model.py:366-405 | with the lead's own non-zero total as divisor, the rescaled days sum exactly to the corrected total |
| Driver.DisaggregateIdentity | remove_bias_pr_thiessen_rsm2008_climate_model.py:399-405 | when the corrected total equals the non-zero forecast total, every day is unchanged |
| Driver.CorrectLead | remove_bias_pr_thiessen_rsm2008_climate_model.py:389-405 | one corrected lead keeps its length and, for a non-zero total, sums to an observed climatology value; it fails exactly on an empty hindcast and otherwise exactly when the rank `closest` picks for the lead total is at least the number of observations |
| Driver.CorrectLeadIdentity | remove_bias_pr_thiessen_rsm2008_climate_model.py:389-405 | a lead whose non-zero total occurs in two agreeing climatologies comes out unchanged |
| Driver.CombineLeads | remove_bias_pr_thiessen_rsm2008_climate_model.py:407-408 | the three corrected leads concatenated in order, or the first lead's error; `CorrectForecastCorrected` states the concatenation and `CorrectForecastTotal` its total |
| Driver.CorrectForecast | remove_bias_pr_thiessen_rsm2008_climate_model.py:370-408 | the basin is skipped exactly when the forecast is missing; with a forecast, the block fails on the hindcast `close` exactly when no hindcast file opened; it never fails on the dates |
| Driver.CorrectBasinSpec | remove_bias_pr_thiessen_rsm2008_climate_model.py:362-408 | the whole per-basin block as one function of the loaders and the method table; the lemmas `CorrectBasinDateRange` to `CorrectBasinIdentity` below state its outcomes |
| Driver.CorrectBasin | remove_bias_pr_thiessen_rsm2008_climate_model.py:362-408 | the per-basin block, run step by step with the loops as methods, equals the specification of the block |
| Driver.SplitConcat | remove_bias_pr_thiessen_rsm2008_climate_model.py:407-408 | the concatenated output cut at the window lengths gives back the three corrected leads |
| Driver.CorrectBasinDateRange | remove_bias_pr_thiessen_rsm2008_climate_model.py:362 | the block fails on its dates exactly for years before 1900 and for October to December runs of year 9999 |
| Driver.CorrectBasinSkipped | remove_bias_pr_thiessen_rsm2008_climate_model.py:364-370 | with valid dates, the basin is skipped exactly when its forecast file cannot be read |
| Driver.CorrectForecastReadFailures | remove_bias_pr_thiessen_rsm2008_climate_model.py:370-375 | with a forecast, the block fails on the hindcast `close` exactly when no file opened; then on the observations exactly when they are missing; then on the hindcast exactly when its climatology is missing |
| Driver.CorrectBasinReadFailures | remove_bias_pr_thiessen_rsm2008_climate_model.py:372-375 | with a forecast, the block fails on the hindcast `close` exactly when no hindcast file opened; otherwise it fails on the observations exactly when an archive read fails; otherwise it fails on the hindcast exactly when a hindcast file fails to load |
| Driver.CorrectForecastMethod | remove_bias_pr_thiessen_rsm2008_climate_model.py:385-396 | with full climatologies, the block fails exactly on a table too short for the month, fails on the undefined name exactly for a tag other than `eqm_des`, and yields a corrected series exactly for `eqm_des` |
| Driver.CorrectBasinMethod | remove_bias_pr_thiessen_rsm2008_climate_model.py:385-396 | the same three exact conditions for the whole block, once every file can be read |
| Driver.CorrectForecastCorrected | remove_bias_pr_thiessen_rsm2008_climate_model.py:370-408 | a corrected outcome implies a forecast, an opened hindcast file, both climatologies, the `eqm_des` tag at index month-1 and three successful leads; the output is those leads concatenated in order |
| Driver.CorrectForecastTotal | remove_bias_pr_thiessen_rsm2008_climate_model.py:398-408 | the NaN-excluding total of a corrected output is the sum of the three corrected leads' totals |
| Driver.CorrectForecastSeries | remove_bias_pr_thiessen_rsm2008_climate_model.py:388-408 | a corrected output is as long as the part of the series its windows cover; when the series covers them, each lead with a non-zero total sums to a value of that lead's observed climatology |
| Driver.CorrectedSeries | remove_bias_pr_thiessen_rsm2008_climate_model.py:364-408 | a corrected series comes from valid dates, readable files and the `eqm_des` tag at index month-1; it is as long as the forecast's three windows; when the forecast covers them, each lead with a non-zero total sums to a value of that lead's observed climatology |
| Driver.CorrectForecastIdentity | remove_bias_pr_thiessen_rsm2008_climate_model.py:388-408 | with no bias to remove, the output is the three forecast windows unchanged |
| Driver.CorrectBasinIdentity | remove_bias_pr_thiessen_rsm2008_climate_model.py:362-408 | with agreeing climatologies and non-zero lead totals that occur in them, the output is the forecast's first a+b+c days unchanged |

## Left out

- File access is not modelled: the NetCDF `Dataset` reads and `close`, `date2index`, path and file
  name construction, `os.makedirs`, `write_thiessen` and the `print` logging are all I/O. Each read
  is an injected function of the run month, or of the two boundary days for the observation archive.
- The model cannot tell a file that opens but whose variable cannot be read from a file that never
  opens: a failed load counts as not opened, so the hindcast `close` error is modelled only for a
  hindcast loader that fails for all 30 years.
- Argument parsing, `arguments`, `define_initial_parameters` (`date.today()`) and the `global`
  configuration are not modelled: they are command-line surface and ambient state. The run
  month is a parameter.
- `basin_dict` and `dict_remove_bias` are external lookup modules whose code is not part of this
  model. The basin's method table is given as a sequence of tags, so a basin missing from the
  dictionary is not modelled.
- The loops over models and basins (lines 348-355) are not modelled; the per-basin block is the
  modelled unit. Only `Skipped` lets the script go on to the next basin (the `continue` at line 422).
  Every `Failed` outcome is an uncaught exception (lines 104, 218, 256, 375, 386 and 393), so in
  the script it also ends the run over all remaining basins and models. The model does not capture
  that.
- The length-mismatch checks (lines 375-382) only print. Their one effect, the `len` of a NaN
  scalar raising, is modelled as `HindcastUnavailable`.
- IEEE floating point is not modelled: values are exact reals, and NaN is `None`. A zero lead total
  makes every day of that lead NaN, as 0/0 does. The infinities that a non-zero day over a zero
  total would give are not modelled; those days are NaN as well.
- `Calendar.ParseYmd` models `strptime` with `%Y%m%d` only on the eight-digit strings `define_dates`
  produces; the flexible field widths `strptime` otherwise accepts are not modelled.
- `Calendar.DefineDates` reports any failure of Python 2 `strftime` or `relativedelta` as one error;
  it does not distinguish the exception types.
- The unused `np.full` arrays (lines 398, 401 and 404) and the unused imports have no effect and
  are not modelled.
- `closest` is modelled on a list without NaN; NumPy's ordering of NaN values does not arise,
  because an `np.nansum` total is never NaN.
