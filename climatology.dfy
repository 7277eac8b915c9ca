/**
 * Window slicing and the 30-year climatologies of the three loaders: a daily series is cut
 * into the three lead windows, and each historical year's windows are reduced to NaN-excluding
 * totals.
 */
module Climatology {
  import opened Outcomes
  import opened Calendar

  /** A daily series; None stands for a NaN value. */
  type Series = seq<Option<real>>

  /**
   * A model file (forecast or hindcast) of the run started in a given month, whose name is
   * built from that run's `define_dates` strings: its series, or None if it cannot be read.
   */
  type Loader = YearMonth -> Option<Series>

  /** The observation archive read between two days inclusive (`date2index` and a slice), or None. */
  type Archive = (Date, Date) -> Option<Series>

  /** The historical years of the climatology. */
  const FirstYear: int := 1981
  const LastYear: int := 2010
  const YearCount: nat := 30

  function Min(a: int, b: int): int {
    if a <= b then a else b
  }

  /** Python's `s[lo:hi]` for non-negative bounds: both bounds are clamped to the length. */
  function Slice<T>(s: seq<T>, lo: nat, hi: nat): (r: seq<T>)
    ensures |r| == if lo <= hi && lo <= |s| then Min(hi, |s|) - lo else 0
    ensures forall i :: 0 <= i < |r| ==> r[i] == s[lo + i]
  {
    if hi <= lo || |s| <= lo then [] else s[lo..Min(hi, |s|)]
  }

  /** One value per lead month. */
  datatype Leads<T> = Leads(lead1: T, lead2: T, lead3: T)

  /** `var[0:a]`, `var[a:a+b]`, `var[a+b:a+b+c]`. */
  function SplitWindows<T>(s: seq<T>, w: Windows): Leads<seq<T>> {
    Leads(Slice(s, 0, w.first),
          Slice(s, w.first, w.first + w.second),
          Slice(s, w.first + w.second, Total(w)))
  }

  /**
   * The three windows are contiguous and disjoint: together they are the series' prefix of
   * length a+b+c (or all of it when it is shorter), and each has its full length when the
   * series is long enough.
   */
  lemma SplitWindowsContiguous<T>(s: seq<T>, w: Windows)
    ensures var r := SplitWindows(s, w);
      r.lead1 + r.lead2 + r.lead3 == s[..Min(Total(w), |s|)]
    ensures var r := SplitWindows(s, w);
      |s| >= Total(w) ==> |r.lead1| == w.first && |r.lead2| == w.second && |r.lead3| == w.third
  {
    var r := SplitWindows(s, w);
    var n := Min(Total(w), |s|);
    var c := r.lead1 + r.lead2 + r.lead3;
    assert |c| == n;
    forall i | 0 <= i < n ensures c[i] == s[i] {
      if i < |r.lead1| {
      } else if i < |r.lead1| + |r.lead2| {
        assert c[i] == r.lead2[i - |r.lead1|];
      } else {
        assert c[i] == r.lead3[i - |r.lead1| - |r.lead2|];
      }
    }
  }

  function ValueOrZero(x: Option<real>): real {
    match x
    case Some(v) => v
    case None => 0.0
  }

  /** `np.nansum`: the sum of the values that are present; zero for an empty or all-NaN series. */
  function NanSum(s: Series): real {
    if s == [] then 0.0 else NanSum(s[..|s| - 1]) + ValueOrZero(s[|s| - 1])
  }

  /** An all-NaN series sums to zero, and a series of non-negative values to a non-negative total. */
  lemma {:induction false} NanSumBounds(s: Series)
    ensures (forall i :: 0 <= i < |s| ==> s[i].None?) ==> NanSum(s) == 0.0
    ensures (forall i :: 0 <= i < |s| ==> s[i].Some? ==> s[i].value >= 0.0) ==> NanSum(s) >= 0.0
  {
    if s != [] {
      NanSumBounds(s[..|s| - 1]);
    }
  }

  /** The sum of a concatenation is the sum of its parts. */
  lemma {:induction false} NanSumAppend(a: Series, b: Series)
    ensures NanSum(a + b) == NanSum(a) + NanSum(b)
    decreases |b|
  {
    if b != [] {
      var b' := b[..|b| - 1];
      assert (a + b)[..|a + b| - 1] == a + b';
      NanSumAppend(a, b');
    } else {
      assert a + b == a;
    }
  }

  /** What `import_fcst_model_data` returns. */
  datatype Forecast = Forecast(days: Leads<Series>, lengths: Windows, available: bool)

  /**
   * `import_fcst_model_data` once the file has been read (or not): the window lengths use the
   * run year; an unreadable file gives three empty windows and a false flag.
   */
  function ImportForecast(year: int, d: Dates, loaded: Option<Series>): (f: Forecast)
    requires WellFormedDates(d)
    ensures f.lengths == WindowLengths(year, d)
    ensures f.available <==> loaded.Some?
    ensures !f.available ==> f.days == Leads([], [], [])
    ensures f.available ==> f.days == SplitWindows(loaded.value, f.lengths)
    ensures f.available ==>
      f.days.lead1 + f.days.lead2 + f.days.lead3 == loaded.value[..Min(Total(f.lengths), |loaded.value|)]
  {
    var w := WindowLengths(year, d);
    match loaded
    case Some(s) =>
      SplitWindowsContiguous(s, w);
      Forecast(SplitWindows(s, w), w, true)
    case None => Forecast(Leads([], [], []), w, false)
  }

  /** The per-lead `nansum` totals of a series cut into windows of the given lengths. */
  function LeadTotals(w: Windows, s: Series): Leads<real> {
    var p := SplitWindows(s, w);
    Leads(NanSum(p.lead1), NanSum(p.lead2), NanSum(p.lead3))
  }

  /** The run of historical year `FirstYear + i` in the given month. */
  function HistoricalRun(i: nat, month: int): YearMonth {
    YearMonth(FirstYear + i, month)
  }

  /** The window lengths of that run, counted in its own year as the loaders do. */
  function HistoricalWindows(i: nat, month: int): Windows
    requires 1 <= month <= 12
  {
    RunWindows(FirstYear + i, HistoricalRun(i, month))
  }

  /** Appends one year's totals to the per-lead lists. */
  function Append(c: Leads<seq<real>>, t: Leads<real>): Leads<seq<real>> {
    Leads(c.lead1 + [t.lead1], c.lead2 + [t.lead2], c.lead3 + [t.lead3])
  }

  /** The lists hold one entry per lead for each of `n` years. */
  predicate HasLength(c: Leads<seq<real>>, n: nat) {
    |c.lead1| == n && |c.lead2| == n && |c.lead3| == n
  }

  /** Entry i of each list, as one value per lead. */
  function Entry(c: Leads<seq<real>>, i: nat): Leads<real>
    requires i < |c.lead1| && i < |c.lead2| && i < |c.lead3|
  {
    Leads(c.lead1[i], c.lead2[i], c.lead3[i])
  }

  /**
   * The per-lead lists after the first `n` years of a climatology loop, where `year(i)` is
   * year i's totals or None when its read failed: None once any read has failed.
   */
  function Accumulate(year: nat -> Option<Leads<real>>, n: nat): Option<Leads<seq<real>>> {
    if n == 0 then Some(Leads([], [], [])) else
      match year(n - 1)
      case None => None
      case Some(t) =>
        match Accumulate(year, n - 1)
        case None => None
        case Some(c) => Some(Append(c, t))
  }

  /**
   * After `n` years the lists exist exactly when every one of those years was read, and then
   * they hold `n` entries per lead, entry i being year i's totals.
   */
  lemma {:induction false} AccumulateMeaning(year: nat -> Option<Leads<real>>, n: nat)
    ensures Accumulate(year, n).Some? <==> forall i :: 0 <= i < n ==> year(i).Some?
    ensures Accumulate(year, n).Some? ==> HasLength(Accumulate(year, n).value, n)
    ensures Accumulate(year, n).Some? ==> forall i :: 0 <= i < n ==>
      Entry(Accumulate(year, n).value, i) == year(i).value
  {
    if n > 0 {
      AccumulateMeaning(year, n - 1);
    }
  }

  /** One more year of the loop: its totals are appended, or the lists are lost. */
  lemma AccumulateNext(year: nat -> Option<Leads<real>>, n: nat)
    ensures Accumulate(year, n + 1) ==
      if year(n).Some? && Accumulate(year, n).Some? then Some(Append(Accumulate(year, n).value, year(n).value)) else None
  { }

  /** One failed year leaves no lists, however many years follow. */
  lemma {:induction false} AccumulateFails(year: nat -> Option<Leads<real>>, k: nat, n: nat)
    requires k < n && year(k).None?
    ensures Accumulate(year, n).None?
    decreases n
  {
    if k < n - 1 {
      AccumulateFails(year, k, n - 1);
    }
  }

  /** Year `FirstYear + i`'s hindcast totals, or None when its file cannot be read. */
  function HindcastYear(month: int, hind: Loader, i: nat): Option<Leads<real>>
    requires 1 <= month <= 12
  {
    if i < YearCount then
      match hind(HistoricalRun(i, month))
      case Some(s) => Some(LeadTotals(HistoricalWindows(i, month), s))
      case None => None
    else None
  }

  /** The loop's per-year outcomes for the hindcast files. */
  function HindcastYears(month: int, hind: Loader): nat -> Option<Leads<real>>
    requires 1 <= month <= 12
  {
    (i: nat) => HindcastYear(month, hind, i)
  }

  /** The hindcast lists after the first `n` years, None once they have become NaN. */
  function HindcastPrefix(month: int, hind: Loader, n: nat): Option<Leads<seq<real>>>
    requires 1 <= month <= 12
  {
    Accumulate(HindcastYears(month, hind), n)
  }

  /** One more hindcast year: its totals are appended, or the lists become NaN. */
  lemma HindcastPrefixNext(month: int, hind: Loader, n: nat)
    requires 1 <= month <= 12
    ensures HindcastPrefix(month, hind, n + 1) ==
      if HindcastYear(month, hind, n).Some? && HindcastPrefix(month, hind, n).Some? then
        Some(Append(HindcastPrefix(month, hind, n).value, HindcastYear(month, hind, n).value)) else None
  {
    var year := HindcastYears(month, hind);
    assert year(n) == HindcastYear(month, hind, n);
    AccumulateNext(year, n);
  }

  /** The hindcast climatology `import_hind_model_data` returns: None for its NaN scalar. */
  function HindcastClimatology(month: int, hind: Loader): Option<Leads<seq<real>>>
    requires 1 <= month <= 12
  {
    HindcastPrefix(month, hind, YearCount)
  }

  /** Every hindcast file of the 30 years can be read. */
  ghost predicate AllHindcastsLoad(month: int, hind: Loader) {
    forall i: nat :: i < YearCount ==> hind(HistoricalRun(i, month)).Some?
  }

  /** At least one hindcast file of the 30 years opens, so the loop leaves a dataset to close. */
  predicate AnyHindcastOpens(month: int, hind: Loader) {
    exists i :: 0 <= i < YearCount && hind(HistoricalRun(i, month)).Some?
  }

  /** Whether the loop has opened a hindcast file within its first `n` years. */
  function OpenedBefore(month: int, hind: Loader, n: nat): bool {
    n > 0 && (OpenedBefore(month, hind, n - 1) || hind(HistoricalRun(n - 1, month)).Some?)
  }

  /** Some file opened within the first `n` years exactly when one of those years' files loads. */
  lemma {:induction false} OpenedBeforeMeaning(month: int, hind: Loader, n: nat)
    ensures OpenedBefore(month, hind, n) <==> exists j :: 0 <= j < n && hind(HistoricalRun(j, month)).Some?
  {
    if n > 0 {
      OpenedBeforeMeaning(month, hind, n - 1);
      if hind(HistoricalRun(n - 1, month)).Some? {
        assert exists j :: 0 <= j < n && hind(HistoricalRun(j, month)).Some?;
      }
    }
  }

  /** A full climatology needs every file, so in particular some file opened. */
  lemma AllLoadsOpenOne(month: int, hind: Loader)
    requires AllHindcastsLoad(month, hind)
    ensures AnyHindcastOpens(month, hind)
  {
    assert hind(HistoricalRun(0, month)).Some?;
  }

  /**
   * With every hindcast file readable the climatology holds 30 entries per lead, entry i being
   * the window totals of year 1981 + i; one unreadable year leaves no climatology.
   */
  lemma HindcastClimatologyMeaning(month: int, hind: Loader)
    requires 1 <= month <= 12
    ensures HindcastClimatology(month, hind).Some? <==> AllHindcastsLoad(month, hind)
    ensures HindcastClimatology(month, hind).Some? ==> HasLength(HindcastClimatology(month, hind).value, YearCount)
    ensures HindcastClimatology(month, hind).Some? ==> forall i: nat :: i < YearCount ==>
      hind(HistoricalRun(i, month)).Some? &&
      Entry(HindcastClimatology(month, hind).value, i) ==
        LeadTotals(HistoricalWindows(i, month), hind(HistoricalRun(i, month)).value)
  {
    var year := HindcastYears(month, hind);
    AccumulateMeaning(year, YearCount);
    forall i: nat | i < YearCount
      ensures year(i) == HindcastYear(month, hind, i)
      ensures year(i).Some? <==> hind(HistoricalRun(i, month)).Some?
      ensures year(i).Some? ==> year(i).value == LeadTotals(HistoricalWindows(i, month), hind(HistoricalRun(i, month)).value)
    { }
  }

  /**
   * `import_hind_model_data`: for each year 1981..2010 derive the dates of a run in the same
   * month, cut the hindcast with that year's window lengths and append each window's `nansum`.
   * A read failure replaces the lists by NaN, and once they are NaN the next `append` raises
   * and is caught, so they stay NaN. `anyOpened` tells whether any file was opened, which the
   * `close` after the loop needs.
   */
  method BuildHindcastClimatology(month: int, hind: Loader) returns (r: Option<Leads<seq<real>>>, anyOpened: bool)
    requires 1 <= month <= 12
    ensures r == HindcastClimatology(month, hind)
    ensures r.Some? <==> AllHindcastsLoad(month, hind)
    ensures r.Some? ==> HasLength(r.value, YearCount)
    ensures r.Some? ==> forall i: nat :: i < YearCount ==>
      Entry(r.value, i) == LeadTotals(HistoricalWindows(i, month), hind(HistoricalRun(i, month)).value)
    ensures anyOpened <==> AnyHindcastOpens(month, hind)
  {
    var clim: Option<Leads<seq<real>>> := Some(Leads([], [], []));
    anyOpened := false;
    for ii := 0 to YearCount
      invariant clim == HindcastPrefix(month, hind, ii)
      invariant anyOpened == OpenedBefore(month, hind, ii)
    {
      var t := ReadHindcastYear(ii, month, hind);
      HindcastPrefixNext(month, hind, ii);
      match t
      case Some(totals) =>
        anyOpened := true;
        if clim.Some? {
          var c := clim.value;
          clim := Some(Leads(c.lead1 + [totals.lead1], c.lead2 + [totals.lead2], c.lead3 + [totals.lead3]));
        }
      case None =>
        clim := None;
    }
    r := clim;
    HindcastClimatologyMeaning(month, hind);
    OpenedBeforeMeaning(month, hind, YearCount);
  }

  /**
   * One iteration of `import_hind_model_data`'s loop: derive the year's run dates, read its
   * hindcast file, and reduce the three windows with `nansum`.
   */
  method ReadHindcastYear(ii: nat, month: int, hind: Loader) returns (t: Option<Leads<real>>)
    requires ii < YearCount && 1 <= month <= 12
    ensures t == HindcastYear(month, hind, ii)
    ensures t.Some? <==> hind(HistoricalRun(ii, month)).Some?
  {
    var run := YearMonth(FirstYear + ii, month);
    var d := DefineDates(run).value;
    var w := WindowLengths(run.year, d);
    WindowLengthsOfRun(run.year, run);
    match hind(run)
    case None =>
      t := None;
    case Some(s) =>
      var p := SplitWindows(s, w);
      t := Some(Leads(NanSum(p.lead1), NanSum(p.lead2), NanSum(p.lead3)));
  }

  /** The observed series of historical year i: the archive from the first day of lead 1 to the last of lead 3. */
  function ObservedSeries(i: nat, month: int, archive: Archive): Option<Series>
    requires 1 <= month <= 12
  {
    archive(LeadStart(HistoricalRun(i, month), 1), LeadEnd(HistoricalRun(i, month), 3))
  }

  /** Year `FirstYear + i`'s observed totals, or None when the archive cannot be read. */
  function ObservedYear(month: int, archive: Archive, i: nat): Option<Leads<real>>
    requires 1 <= month <= 12
  {
    if i < YearCount then
      match ObservedSeries(i, month, archive)
      case Some(s) => Some(LeadTotals(HistoricalWindows(i, month), s))
      case None => None
    else None
  }

  /** The loop's per-year outcomes for the observation archive. */
  function ObservedYears(month: int, archive: Archive): nat -> Option<Leads<real>>
    requires 1 <= month <= 12
  {
    (i: nat) => ObservedYear(month, archive, i)
  }

  /** The observed lists after the first `n` years, None once a read has raised. */
  function ObservedPrefix(month: int, archive: Archive, n: nat): Option<Leads<seq<real>>>
    requires 1 <= month <= 12
  {
    Accumulate(ObservedYears(month, archive), n)
  }

  /** One more observed year: its totals are appended, or the run has raised. */
  lemma ObservedPrefixNext(month: int, archive: Archive, n: nat)
    requires 1 <= month <= 12
    ensures ObservedPrefix(month, archive, n + 1) ==
      if ObservedYear(month, archive, n).Some? && ObservedPrefix(month, archive, n).Some? then
        Some(Append(ObservedPrefix(month, archive, n).value, ObservedYear(month, archive, n).value)) else None
  {
    var year := ObservedYears(month, archive);
    assert year(n) == ObservedYear(month, archive, n);
    AccumulateNext(year, n);
  }

  /** A failed observed year leaves no climatology, whatever the later years would give. */
  lemma ObservedPrefixFails(month: int, archive: Archive, k: nat)
    requires 1 <= month <= 12 && k < YearCount && ObservedYear(month, archive, k).None?
    ensures ObservedClimatology(month, archive).None?
  {
    var year := ObservedYears(month, archive);
    assert year(k) == ObservedYear(month, archive, k);
    AccumulateFails(year, k, YearCount);
  }

  /** The observed climatology `import_hind_obs_data` returns, or None where it raises. */
  function ObservedClimatology(month: int, archive: Archive): Option<Leads<seq<real>>>
    requires 1 <= month <= 12
  {
    ObservedPrefix(month, archive, YearCount)
  }

  /** The archive can be read over all 30 years' windows. */
  ghost predicate AllObservationsLoad(month: int, archive: Archive)
    requires 1 <= month <= 12
  {
    forall i: nat :: i < YearCount ==> ObservedSeries(i, month, archive).Some?
  }

  /**
   * With the archive readable over every year's window the climatology holds 30 entries per
   * lead, entry i being the window totals of year 1981 + i; otherwise there is none.
   */
  lemma ObservedClimatologyMeaning(month: int, archive: Archive)
    requires 1 <= month <= 12
    ensures ObservedClimatology(month, archive).Some? <==> AllObservationsLoad(month, archive)
    ensures ObservedClimatology(month, archive).Some? ==> HasLength(ObservedClimatology(month, archive).value, YearCount)
    ensures ObservedClimatology(month, archive).Some? ==> forall i: nat :: i < YearCount ==>
      ObservedSeries(i, month, archive).Some? &&
      Entry(ObservedClimatology(month, archive).value, i) ==
        LeadTotals(HistoricalWindows(i, month), ObservedSeries(i, month, archive).value)
  {
    var year := ObservedYears(month, archive);
    AccumulateMeaning(year, YearCount);
    forall i: nat | i < YearCount
      ensures year(i) == ObservedYear(month, archive, i)
      ensures year(i).Some? <==> ObservedSeries(i, month, archive).Some?
      ensures year(i).Some? ==> year(i).value == LeadTotals(HistoricalWindows(i, month), ObservedSeries(i, month, archive).value)
    { }
  }

  /**
   * One iteration of `import_hind_obs_data`'s loop: parse the year's `start_fcstdate` and
   * `end_fcstdate`, read the archive between those days, and reduce the three windows.
   */
  method ReadObservedYear(ii: nat, month: int, archive: Archive) returns (t: Option<Leads<real>>)
    requires ii < YearCount && 1 <= month <= 12
    ensures t == ObservedYear(month, archive, ii)
  {
    var run := YearMonth(FirstYear + ii, month);
    var d := DefineDates(run).value;
    var w := WindowLengths(run.year, d);
    WindowLengthsOfRun(run.year, run);
    DefineDatesRoundTrip(run);
    var first := ParseYmd(d.startFcstdate).value;
    var last := ParseYmd(d.endFcstdate).value;
    match archive(first, last)
    case None =>
      t := None;
    case Some(aux) =>
      var p := SplitWindows(aux, w);
      t := Some(Leads(NanSum(p.lead1), NanSum(p.lead2), NanSum(p.lead3)));
  }

  /**
   * `import_hind_obs_data`: for each year 1981..2010 read the observed series over that year's
   * forecast months and append each window's `nansum`. Nothing is caught here: the first failed
   * read ends the whole run.
   */
  method BuildObservedClimatology(month: int, archive: Archive) returns (r: Option<Leads<seq<real>>>)
    requires 1 <= month <= 12
    ensures r == ObservedClimatology(month, archive)
    ensures r.Some? <==> AllObservationsLoad(month, archive)
    ensures r.Some? ==> HasLength(r.value, YearCount)
    ensures r.Some? ==> forall i: nat :: i < YearCount ==>
      Entry(r.value, i) == LeadTotals(HistoricalWindows(i, month), ObservedSeries(i, month, archive).value)
  {
    var o1, o2, o3 := [], [], [];
    for ii := 0 to YearCount
      invariant ObservedPrefix(month, archive, ii) == Some(Leads(o1, o2, o3))
    {
      var t := ReadObservedYear(ii, month, archive);
      ObservedPrefixNext(month, archive, ii);
      match t
      case None =>
        ObservedPrefixFails(month, archive, ii);
        ObservedClimatologyMeaning(month, archive);
        return None;
      case Some(totals) =>
        o1, o2, o3 := o1 + [totals.lead1], o2 + [totals.lead2], o3 + [totals.lead3];
    }
    r := Some(Leads(o1, o2, o3));
    ObservedClimatologyMeaning(month, archive);
  }
}
