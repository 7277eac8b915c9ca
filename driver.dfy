/**
 * The per-basin block of the main program: read the forecast, build both climatologies, look up
 * the basin's method for the run month, map each lead total, and spread each corrected total
 * back over the lead's days in the forecast's own daily proportions.
 */
module Driver {
  import opened Outcomes
  import opened Calendar
  import opened Climatology
  import opened QuantileMapping

  /** The method tag that selects quantile mapping. */
  const EqmTag: string := "eqm_des"

  /** What the block produces for one basin. */
  datatype BasinOutcome =
    | Corrected(series: Series)  // the corrected daily series handed to `write_thiessen`
    | Skipped                    // the forecast file is missing: the basin is passed over
    | Failed(error: Error)       // the run stops with an error

  /** `dict_remove_bias[basin][month - 1]`: the index raises when the basin's table is too short. */
  function SelectMethod(methods: seq<string>, month: int): (r: Result<string, Error>)
    requires 1 <= month <= 12
    ensures r.Success? <==> month <= |methods|
    ensures r.Success? ==> r.value == methods[month - 1]
    ensures r.Failure? ==> r.error == MethodTableTooShort
  {
    if month - 1 < |methods| then Success(methods[month - 1]) else Failure(MethodTableTooShort)
  }

  /**
   * `(d / total) * corrected` for one day: a NaN day stays NaN, and so does every day of a lead
   * whose total is zero, as 0/0 is NaN.
   */
  function Rescale(d: Option<real>, total: real, corrected: real): Option<real> {
    match d
    case None => None
    case Some(v) => if total == 0.0 then None else Some(v / total * corrected)
  }

  /** The daily values of one lead rescaled so that they add up to the corrected total. */
  function Disaggregate(days: Series, total: real, corrected: real): (r: Series)
    ensures |r| == |days|
    ensures forall i :: 0 <= i < |r| ==> (r[i].None? <==> days[i].None? || total == 0.0)
    ensures forall i :: 0 <= i < |r| ==> r[i] == Rescale(days[i], total, corrected)
  {
    seq(|days|, i requires 0 <= i < |days| => Rescale(days[i], total, corrected))
  }

  /** The rescaled days sum to the days' own sum scaled by `corrected / total`. */
  lemma DisaggregateSum(days: Series, total: real, corrected: real)
    requires total != 0.0
    ensures NanSum(Disaggregate(days, total, corrected)) == NanSum(days) / total * corrected
  {
    RescaledSumMeaning(days, total, corrected);
    RescaledSumScaled(days, total, corrected);
    ScaledDaySumFactor(days, corrected / total);
    FactorScaled(NanSum(days), total, corrected);
  }

  /** The sum of the rescaled days, day by day, without building the rescaled series. */
  function RescaledSum(days: Series, total: real, corrected: real): real {
    if days == [] then 0.0
    else RescaledSum(days[..|days| - 1], total, corrected) + ValueOrZero(Rescale(days[|days| - 1], total, corrected))
  }

  /** The sum of the days, each multiplied by `k`; a NaN day contributes zero. */
  function ScaledDaySum(days: Series, k: real): real {
    if days == [] then 0.0 else ScaledDaySum(days[..|days| - 1], k) + ValueOrZero(days[|days| - 1]) * k
  }

  /** `RescaledSum` is the sum of the rescaled series. */
  lemma {:induction false} RescaledSumMeaning(days: Series, total: real, corrected: real)
    ensures NanSum(Disaggregate(days, total, corrected)) == RescaledSum(days, total, corrected)
    decreases |days|
  {
    if days == [] {
      assert Disaggregate(days, total, corrected) == [];
    } else {
      DisaggregateLast(days, total, corrected);
      RescaledSumMeaning(days[..|days| - 1], total, corrected);
    }
  }

  /** Rescaling a day by `(d / total) * corrected` is multiplying it by `corrected / total`, day after day. */
  lemma {:induction false} RescaledSumScaled(days: Series, total: real, corrected: real)
    requires total != 0.0
    ensures RescaledSum(days, total, corrected) == ScaledDaySum(days, corrected / total)
    decreases |days|
  {
    if days != [] {
      RescaledSumScaled(days[..|days| - 1], total, corrected);
      RescaledValue(days[|days| - 1], total, corrected);
    }
  }

  /** Multiplying every day by `k` multiplies their sum by `k`. */
  lemma {:induction false} ScaledDaySumFactor(days: Series, k: real)
    ensures ScaledDaySum(days, k) == NanSum(days) * k
    decreases |days|
  {
    if days == [] {
      ZeroScaled(k);
    } else {
      var n := |days| - 1;
      ScaledDaySumFactor(days[..n], k);
      ScaledSumStep(ScaledDaySum(days, k), ScaledDaySum(days[..n], k), ValueOrZero(days[n]) * k,
                    NanSum(days), NanSum(days[..n]), ValueOrZero(days[n]), k);
    }
  }

  /** Scaling nothing gives nothing. */
  lemma ZeroScaled(k: real)
    ensures 0.0 * k == 0.0
  {
  }

  /** Rescaling all but the last day, then the last day, is rescaling every day. */
  lemma DisaggregateLast(days: Series, total: real, corrected: real)
    requires days != []
    ensures Disaggregate(days, total, corrected)[..|days| - 1] == Disaggregate(days[..|days| - 1], total, corrected)
    ensures Disaggregate(days, total, corrected)[|days| - 1] == Rescale(days[|days| - 1], total, corrected)
  {
  }

  /** The induction step: if the prefix and the last day both scale by `k`, so does their sum. */
  lemma ScaledSumStep(sumR: real, a: real, lastR: real, sumD: real, b: real, lastD: real, k: real)
    requires sumR == a + lastR && sumD == b + lastD
    requires a == b * k && lastR == lastD * k
    ensures sumR == sumD * k
  {
    assert sumD * k == b * k + lastD * k;
  }

  /** One day's contribution to the sum is its value times `corrected / total`; a NaN day contributes zero. */
  lemma RescaledValue(d: Option<real>, total: real, corrected: real)
    requires total != 0.0
    ensures ValueOrZero(Rescale(d, total, corrected)) == ValueOrZero(d) * (corrected / total)
  {
    if d.Some? {
      FactorScaled(d.value, total, corrected);
    }
  }

  /** Dividing by `t` and then multiplying by `c` is multiplying by `c / t`. */
  lemma FactorScaled(v: real, t: real, c: real)
    requires t != 0.0
    ensures v / t * c == v * (c / t)
  {
  }

  /** Dividing and multiplying by the same non-zero total cancels. */
  lemma UnitScaled(v: real, t: real)
    requires t != 0.0
    ensures v / t * t == v
  {
  }

  /** Scaling a total by `c / total` gives `c`. */
  lemma SelfScaled(t: real, c: real)
    requires t != 0.0
    ensures t / t * c == c
  {
  }

  /** With the lead's own total as divisor, the rescaled days sum exactly to the corrected total. */
  lemma DisaggregatePreservesTotal(days: Series, corrected: real)
    requires NanSum(days) != 0.0
    ensures NanSum(Disaggregate(days, NanSum(days), corrected)) == corrected
  {
    DisaggregateSum(days, NanSum(days), corrected);
    SelfScaled(NanSum(days), corrected);
  }

  /** When the corrected total is the forecast total, every day is left as it was. */
  lemma DisaggregateIdentity(days: Series, total: real)
    requires total != 0.0
    ensures Disaggregate(days, total, total) == days
  {
    var r := Disaggregate(days, total, total);
    forall i | 0 <= i < |days|
      ensures r[i] == days[i]
    {
      if days[i].Some? {
        UnitScaled(days[i].value, total);
      }
    }
  }

  /**
   * One lead: its forecast total is mapped against that lead's climatologies and the days are
   * rescaled to the result.
   */
  function CorrectLead(days: Series, model: seq<real>, obs: seq<real>): (r: Result<Series, Error>)
    ensures r.Success? ==> |r.value| == |days|
    ensures r.Success? && NanSum(days) != 0.0 ==> NanSum(r.value) in obs
    ensures r.Failure? ==> r.error == EmptyReference || r.error == RankOutOfRange
    ensures |model| == 0 <==> r == Failure(EmptyReference)
    ensures 0 < |model| <= |obs| ==> r.Success?
    ensures r == Failure(RankOutOfRange) <==> |model| > 0 && LastArgMin(Distances(NanSum(days), Sort(model))) >= |obs|
  {
    var total := NanSum(days);
    match Eqm(model, obs, total)
    case Failure(e) => Failure(e)
    case Success(c) =>
      assert total != 0.0 ==> NanSum(Disaggregate(days, total, c)) == c by {
        if total != 0.0 {
          DisaggregatePreservesTotal(days, c);
        }
      }
      Success(Disaggregate(days, total, c))
  }

  /**
   * A lead whose forecast total already occurs in climatologies that agree with each other
   * comes out unchanged.
   */
  lemma CorrectLeadIdentity(days: Series, model: seq<real>, obs: seq<real>)
    requires multiset(model) == multiset(obs) && NanSum(days) in model && NanSum(days) != 0.0
    ensures CorrectLead(days, model, obs) == Success(days)
  {
    EqmIdentity(model, obs, NanSum(days));
    DisaggregateIdentity(days, NanSum(days));
  }

  /** The three corrected leads concatenated, or the first lead's error. */
  function CombineLeads(r1: Result<Series, Error>, r2: Result<Series, Error>, r3: Result<Series, Error>): BasinOutcome {
    if r1.Failure? then Failed(r1.error)
    else if r2.Failure? then Failed(r2.error)
    else if r3.Failure? then Failed(r3.error)
    else Corrected(r1.value + r2.value + r3.value)
  }

  /**
   * The block once the dates are known and the forecast has been imported, given the two
   * climatologies (None where building them failed) and whether any hindcast file opened: skip
   * a missing forecast, stop on a failed read, look up the method, and correct the three leads.
   */
  function CorrectForecast(month: int, f: Forecast, anyOpened: bool, model: Option<Leads<seq<real>>>,
                           obs: Option<Leads<seq<real>>>, methods: seq<string>): (r: BasinOutcome)
    requires 1 <= month <= 12
    ensures r != Failed(DateOutOfRange)
    ensures r == Skipped <==> !f.available
    ensures f.available ==> (r == Failed(HindcastNeverOpened) <==> !anyOpened)
  {
    if !f.available then Skipped
    else if !anyOpened then Failed(HindcastNeverOpened)
    else if obs.None? then Failed(ObservationUnavailable)
    else if model.None? then Failed(HindcastUnavailable)
    else
      match SelectMethod(methods, month)
      case Failure(e) => Failed(e)
      case Success(tag) =>
        if tag != EqmTag then Failed(UndefinedName)
        else
          CombineLeads(CorrectLead(f.days.lead1, model.value.lead1, obs.value.lead1),
                       CorrectLead(f.days.lead2, model.value.lead2, obs.value.lead2),
                       CorrectLead(f.days.lead3, model.value.lead3, obs.value.lead3))
  }

  /**
   * The whole block for one basin and run month `t`, with the forecast and hindcast files and
   * the observation archive given as loaders and the basin's method table as a sequence.
   */
  function CorrectBasinSpec(t: YearMonth, fcst: Loader, hind: Loader, archive: Archive, methods: seq<string>): BasinOutcome
    requires ValidYearMonth(t)
  {
    match DefineDates(t)
    case None => Failed(DateOutOfRange)
    case Some(d) =>
      CorrectForecast(t.month, ImportForecast(t.year, d, fcst(t)), AnyHindcastOpens(t.month, hind),
                      HindcastClimatology(t.month, hind), ObservedClimatology(t.month, archive), methods)
  }

  /**
   * The main block for one basin: the steps run in the program's order, and the first that
   * fails decides the outcome.
   */
  method CorrectBasin(t: YearMonth, fcst: Loader, hind: Loader, archive: Archive, methods: seq<string>)
    returns (r: BasinOutcome)
    requires ValidYearMonth(t)
    ensures r == CorrectBasinSpec(t, fcst, hind, archive, methods)
  {
    var dates := DefineDates(t);
    if dates.None? {
      return Failed(DateOutOfRange);
    }
    var f := ImportForecast(t.year, dates.value, fcst(t));
    var acc1, acc2, acc3 := NanSum(f.days.lead1), NanSum(f.days.lead2), NanSum(f.days.lead3);
    if !f.available {
      return Skipped;
    }
    var model, anyOpened := BuildHindcastClimatology(t.month, hind);
    if !anyOpened {
      return Failed(HindcastNeverOpened);
    }
    var obs := BuildObservedClimatology(t.month, archive);
    if obs.None? {
      return Failed(ObservationUnavailable);
    }
    if model.None? {
      return Failed(HindcastUnavailable);
    }
    var best := SelectMethod(methods, t.month);
    if best.Failure? {
      return Failed(best.error);
    }
    if best.value != EqmTag {
      return Failed(UndefinedName);
    }
    var c1 := EqmResBiasCorrection(model.value.lead1, obs.value.lead1, acc1);
    assert c1.Success?;
    var c2 := EqmResBiasCorrection(model.value.lead2, obs.value.lead2, acc2);
    assert c2.Success?;
    var c3 := EqmResBiasCorrection(model.value.lead3, obs.value.lead3, acc3);
    assert c3.Success?;
    var des1 := Disaggregate(f.days.lead1, acc1, c1.value);
    var des2 := Disaggregate(f.days.lead2, acc2, c2.value);
    var des3 := Disaggregate(f.days.lead3, acc3, c3.value);
    r := Corrected(des1 + des2 + des3);
  }

  /** Three pieces of the window lengths, concatenated, split back into themselves. */
  lemma SplitConcat<T>(a: seq<T>, b: seq<T>, c: seq<T>, w: Windows)
    requires |a| == w.first && |b| == w.second && |c| == w.third
    ensures SplitWindows(a + b + c, w) == Leads(a, b, c)
  {
    var s := a + b + c;
    assert Slice(s, 0, w.first) == a;
    assert Slice(s, w.first, w.first + w.second) == b;
    assert Slice(s, w.first + w.second, Total(w)) == c;
  }

  /** The run fails on its dates exactly where `define_dates` raises. */
  lemma CorrectBasinDateRange(t: YearMonth, fcst: Loader, hind: Loader, archive: Archive, methods: seq<string>)
    requires ValidYearMonth(t)
    ensures CorrectBasinSpec(t, fcst, hind, archive, methods) == Failed(DateOutOfRange) <==>
      t.year < 1900 || (t.year == 9999 && t.month >= 10)
  {
  }

  /** With valid dates, the basin is skipped exactly when its forecast file cannot be read. */
  lemma CorrectBasinSkipped(t: YearMonth, fcst: Loader, hind: Loader, archive: Archive, methods: seq<string>)
    requires ValidYearMonth(t) && DefineDates(t).Some?
    ensures CorrectBasinSpec(t, fcst, hind, archive, methods) == Skipped <==> fcst(t).None?
  {
  }

  /**
   * With a forecast to correct, the block stops first when no hindcast file opened at all; then
   * on missing observations; then on a missing hindcast climatology. No later step fails with
   * one of these errors.
   */
  lemma CorrectForecastReadFailures(month: int, f: Forecast, anyOpened: bool, model: Option<Leads<seq<real>>>,
                                    obs: Option<Leads<seq<real>>>, methods: seq<string>)
    requires 1 <= month <= 12 && f.available
    ensures CorrectForecast(month, f, anyOpened, model, obs, methods) == Failed(HindcastNeverOpened) <==> !anyOpened
    ensures anyOpened ==>
      (CorrectForecast(month, f, anyOpened, model, obs, methods) == Failed(ObservationUnavailable) <==> obs.None?)
    ensures anyOpened && obs.Some? ==>
      (CorrectForecast(month, f, anyOpened, model, obs, methods) == Failed(HindcastUnavailable) <==> model.None?)
  {
  }

  /**
   * With a forecast to correct, the run stops first when no hindcast file opened at all; then
   * a failed observation read stops it; once the observations are read, a collapsed hindcast
   * climatology stops it.
   */
  lemma CorrectBasinReadFailures(t: YearMonth, fcst: Loader, hind: Loader, archive: Archive, methods: seq<string>)
    requires ValidYearMonth(t) && DefineDates(t).Some? && fcst(t).Some?
    ensures CorrectBasinSpec(t, fcst, hind, archive, methods) == Failed(HindcastNeverOpened) <==>
      !AnyHindcastOpens(t.month, hind)
    ensures AnyHindcastOpens(t.month, hind) ==>
      (CorrectBasinSpec(t, fcst, hind, archive, methods) == Failed(ObservationUnavailable) <==>
       !AllObservationsLoad(t.month, archive))
    ensures AnyHindcastOpens(t.month, hind) && AllObservationsLoad(t.month, archive) ==>
      (CorrectBasinSpec(t, fcst, hind, archive, methods) == Failed(HindcastUnavailable) <==>
       !AllHindcastsLoad(t.month, hind))
  {
    HindcastClimatologyMeaning(t.month, hind);
    ObservedClimatologyMeaning(t.month, archive);
    var f := ImportForecast(t.year, DefineDates(t).value, fcst(t));
    var model, obs := HindcastClimatology(t.month, hind), ObservedClimatology(t.month, archive);
    assert CorrectBasinSpec(t, fcst, hind, archive, methods) ==
      CorrectForecast(t.month, f, AnyHindcastOpens(t.month, hind), model, obs, methods);
    CorrectForecastReadFailures(t.month, f, AnyHindcastOpens(t.month, hind), model, obs, methods);
  }

  /**
   * With a forecast and two full 30-year climatologies, the method table decides: a short table
   * or a tag other than `eqm_des` fails, and `eqm_des` always yields a corrected series.
   */
  lemma CorrectForecastMethod(month: int, f: Forecast, model: Option<Leads<seq<real>>>, obs: Option<Leads<seq<real>>>,
                               methods: seq<string>)
    requires 1 <= month <= 12 && f.available && model.Some? && obs.Some?
    requires HasLength(model.value, YearCount) && HasLength(obs.value, YearCount)
    ensures CorrectForecast(month, f, true, model, obs, methods) == Failed(MethodTableTooShort) <==> |methods| < month
    ensures CorrectForecast(month, f, true, model, obs, methods) == Failed(UndefinedName) <==>
      month <= |methods| && methods[month - 1] != EqmTag
    ensures CorrectForecast(month, f, true, model, obs, methods).Corrected? <==>
      month <= |methods| && methods[month - 1] == EqmTag
  {
  }

  /** The same for the whole block, once every file can be read. */
  lemma CorrectBasinMethod(t: YearMonth, fcst: Loader, hind: Loader, archive: Archive, methods: seq<string>)
    requires ValidYearMonth(t) && DefineDates(t).Some? && fcst(t).Some?
    requires AllHindcastsLoad(t.month, hind) && AllObservationsLoad(t.month, archive)
    ensures CorrectBasinSpec(t, fcst, hind, archive, methods) == Failed(MethodTableTooShort) <==> |methods| < t.month
    ensures CorrectBasinSpec(t, fcst, hind, archive, methods) == Failed(UndefinedName) <==>
      t.month <= |methods| && methods[t.month - 1] != EqmTag
    ensures CorrectBasinSpec(t, fcst, hind, archive, methods).Corrected? <==>
      t.month <= |methods| && methods[t.month - 1] == EqmTag
  {
    HindcastClimatologyMeaning(t.month, hind);
    ObservedClimatologyMeaning(t.month, archive);
    AllLoadsOpenOne(t.month, hind);
    var f := ImportForecast(t.year, DefineDates(t).value, fcst(t));
    CorrectForecastMethod(t.month, f, HindcastClimatology(t.month, hind), ObservedClimatology(t.month, archive), methods);
  }

  /**
   * A corrected outcome means every step passed: the forecast was there, a hindcast file
   * opened, both climatologies were built, the method is quantile mapping, and each lead was
   * mapped; the output is the three corrected leads in order.
   */
  lemma CorrectForecastCorrected(month: int, f: Forecast, anyOpened: bool, model: Option<Leads<seq<real>>>,
                                 obs: Option<Leads<seq<real>>>, methods: seq<string>)
    requires 1 <= month <= 12 && CorrectForecast(month, f, anyOpened, model, obs, methods).Corrected?
    ensures f.available && anyOpened && obs.Some? && model.Some?
    ensures month <= |methods| && methods[month - 1] == EqmTag
    ensures var r1, r2, r3 := CorrectLead(f.days.lead1, model.value.lead1, obs.value.lead1),
                              CorrectLead(f.days.lead2, model.value.lead2, obs.value.lead2),
                              CorrectLead(f.days.lead3, model.value.lead3, obs.value.lead3);
      r1.Success? && r2.Success? && r3.Success? &&
      CorrectForecast(month, f, anyOpened, model, obs, methods).series == r1.value + r2.value + r3.value
  {
  }

  /** The total of a corrected output is the sum of its three corrected lead totals. */
  lemma CorrectForecastTotal(month: int, f: Forecast, anyOpened: bool, model: Option<Leads<seq<real>>>,
                             obs: Option<Leads<seq<real>>>, methods: seq<string>)
    requires 1 <= month <= 12 && CorrectForecast(month, f, anyOpened, model, obs, methods).Corrected?
    ensures obs.Some? && model.Some?
    ensures var r1, r2, r3 := CorrectLead(f.days.lead1, model.value.lead1, obs.value.lead1),
                              CorrectLead(f.days.lead2, model.value.lead2, obs.value.lead2),
                              CorrectLead(f.days.lead3, model.value.lead3, obs.value.lead3);
      r1.Success? && r2.Success? && r3.Success? &&
      NanSum(CorrectForecast(month, f, anyOpened, model, obs, methods).series) ==
        NanSum(r1.value) + NanSum(r2.value) + NanSum(r3.value)
  {
    CorrectForecastCorrected(month, f, anyOpened, model, obs, methods);
    var r1 := CorrectLead(f.days.lead1, model.value.lead1, obs.value.lead1);
    var r2 := CorrectLead(f.days.lead2, model.value.lead2, obs.value.lead2);
    var r3 := CorrectLead(f.days.lead3, model.value.lead3, obs.value.lead3);
    NanSumAppend(r1.value + r2.value, r3.value);
    NanSumAppend(r1.value, r2.value);
  }

  /**
   * A corrected series comes from readable files and the `eqm_des` tag at index month-1; it is
   * as long as the forecast's three windows, and when the forecast covers them, each lead of the
   * output sums to a value of that lead's observed climatology (for a lead with a non-zero total).
   */
  lemma CorrectedSeries(t: YearMonth, fcst: Loader, hind: Loader, archive: Archive, methods: seq<string>)
    requires ValidYearMonth(t) && CorrectBasinSpec(t, fcst, hind, archive, methods).Corrected?
    ensures DefineDates(t).Some? && fcst(t).Some?
    ensures AllHindcastsLoad(t.month, hind) && AllObservationsLoad(t.month, archive)
    ensures t.month <= |methods| && methods[t.month - 1] == EqmTag
    ensures var out, s, w := CorrectBasinSpec(t, fcst, hind, archive, methods).series, fcst(t).value, RunWindows(t.year, t);
      |out| == Min(Total(w), |s|)
    ensures var out, s, w := CorrectBasinSpec(t, fcst, hind, archive, methods).series, fcst(t).value, RunWindows(t.year, t);
      var obs := ObservedClimatology(t.month, archive).value;
      |s| >= Total(w) ==>
        (NanSum(SplitWindows(s, w).lead1) != 0.0 ==> NanSum(SplitWindows(out, w).lead1) in obs.lead1) &&
        (NanSum(SplitWindows(s, w).lead2) != 0.0 ==> NanSum(SplitWindows(out, w).lead2) in obs.lead2) &&
        (NanSum(SplitWindows(s, w).lead3) != 0.0 ==> NanSum(SplitWindows(out, w).lead3) in obs.lead3)
  {
    HindcastClimatologyMeaning(t.month, hind);
    ObservedClimatologyMeaning(t.month, archive);
    var d := DefineDates(t).value;
    var w := RunWindows(t.year, t);
    WindowLengthsOfRun(t.year, t);
    var f := ImportForecast(t.year, d, fcst(t));
    assert f.days == SplitWindows(fcst(t).value, w);
    var model, obs := HindcastClimatology(t.month, hind), ObservedClimatology(t.month, archive);
    assert CorrectBasinSpec(t, fcst, hind, archive, methods) ==
      CorrectForecast(t.month, f, AnyHindcastOpens(t.month, hind), model, obs, methods);
    CorrectForecastCorrected(t.month, f, AnyHindcastOpens(t.month, hind), model, obs, methods);
    CorrectForecastSeries(t.month, f, AnyHindcastOpens(t.month, hind), model, obs, methods, fcst(t).value);
  }

  /**
   * The corrected series of a forecast cut from `s`: as long as the part of `s` its windows
   * cover, and, when `s` covers them all, each lead of the output sums to a value of that lead's
   * observed climatology (for a lead with a non-zero total).
   */
  lemma CorrectForecastSeries(month: int, f: Forecast, anyOpened: bool, model: Option<Leads<seq<real>>>,
                              obs: Option<Leads<seq<real>>>, methods: seq<string>, s: Series)
    requires 1 <= month <= 12 && CorrectForecast(month, f, anyOpened, model, obs, methods).Corrected?
    requires f.days == SplitWindows(s, f.lengths)
    ensures obs.Some?
    ensures var out := CorrectForecast(month, f, anyOpened, model, obs, methods).series;
      |out| == Min(Total(f.lengths), |s|)
    ensures var out, w := CorrectForecast(month, f, anyOpened, model, obs, methods).series, f.lengths;
      |s| >= Total(w) ==>
        (NanSum(SplitWindows(s, w).lead1) != 0.0 ==> NanSum(SplitWindows(out, w).lead1) in obs.value.lead1) &&
        (NanSum(SplitWindows(s, w).lead2) != 0.0 ==> NanSum(SplitWindows(out, w).lead2) in obs.value.lead2) &&
        (NanSum(SplitWindows(s, w).lead3) != 0.0 ==> NanSum(SplitWindows(out, w).lead3) in obs.value.lead3)
  {
    CorrectForecastCorrected(month, f, anyOpened, model, obs, methods);
    var r1 := CorrectLead(f.days.lead1, model.value.lead1, obs.value.lead1);
    var r2 := CorrectLead(f.days.lead2, model.value.lead2, obs.value.lead2);
    var r3 := CorrectLead(f.days.lead3, model.value.lead3, obs.value.lead3);
    SplitWindowsContiguous(s, f.lengths);
    if |s| >= Total(f.lengths) {
      SplitConcat(r1.value, r2.value, r3.value, f.lengths);
    }
  }


  /**
   * With no bias to remove — each lead's hindcast and observed climatologies hold the same
   * values, and each forecast lead total is non-zero and occurs among them — every lead is
   * passed through unchanged.
   */
  lemma CorrectForecastIdentity(month: int, f: Forecast, model: Leads<seq<real>>, obs: Leads<seq<real>>,
                                 methods: seq<string>)
    requires 1 <= month <= 12 && f.available
    requires month <= |methods| && methods[month - 1] == EqmTag
    requires multiset(model.lead1) == multiset(obs.lead1) && NanSum(f.days.lead1) != 0.0 && NanSum(f.days.lead1) in model.lead1
    requires multiset(model.lead2) == multiset(obs.lead2) && NanSum(f.days.lead2) != 0.0 && NanSum(f.days.lead2) in model.lead2
    requires multiset(model.lead3) == multiset(obs.lead3) && NanSum(f.days.lead3) != 0.0 && NanSum(f.days.lead3) in model.lead3
    ensures CorrectForecast(month, f, true, Some(model), Some(obs), methods) ==
      Corrected(f.days.lead1 + f.days.lead2 + f.days.lead3)
  {
    CorrectLeadIdentity(f.days.lead1, model.lead1, obs.lead1);
    CorrectLeadIdentity(f.days.lead2, model.lead2, obs.lead2);
    CorrectLeadIdentity(f.days.lead3, model.lead3, obs.lead3);
  }

  /** The same for the whole block: the corrected series is the forecast's three windows. */
  lemma CorrectBasinIdentity(t: YearMonth, fcst: Loader, hind: Loader, archive: Archive, methods: seq<string>)
    requires ValidYearMonth(t) && DefineDates(t).Some? && fcst(t).Some?
    requires HindcastClimatology(t.month, hind).Some? && ObservedClimatology(t.month, archive).Some?
    requires t.month <= |methods| && methods[t.month - 1] == EqmTag
    requires var model, obs := HindcastClimatology(t.month, hind).value, ObservedClimatology(t.month, archive).value;
      var totals := LeadTotals(RunWindows(t.year, t), fcst(t).value);
      multiset(model.lead1) == multiset(obs.lead1) && totals.lead1 != 0.0 && totals.lead1 in model.lead1 &&
      multiset(model.lead2) == multiset(obs.lead2) && totals.lead2 != 0.0 && totals.lead2 in model.lead2 &&
      multiset(model.lead3) == multiset(obs.lead3) && totals.lead3 != 0.0 && totals.lead3 in model.lead3
    ensures var s, w := fcst(t).value, RunWindows(t.year, t);
      CorrectBasinSpec(t, fcst, hind, archive, methods) == Corrected(s[..Min(Total(w), |s|)])
  {
    HindcastClimatologyMeaning(t.month, hind);
    AllLoadsOpenOne(t.month, hind);
    WindowLengthsOfRun(t.year, t);
    var f := ImportForecast(t.year, DefineDates(t).value, fcst(t));
    assert f.days == SplitWindows(fcst(t).value, RunWindows(t.year, t));
    CorrectForecastIdentity(t.month, f, HindcastClimatology(t.month, hind).value,
                            ObservedClimatology(t.month, archive).value, methods);
  }
}
