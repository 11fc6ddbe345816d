/**
  What a pass of `read_config` guarantees, and how it fails: the invariants of a
  completed pass, the modes, the windows, worked examples, and
  the values `json.dumps` and `strftime` write being read back.
 */
module ConfigProperties {
  import opened Wrappers
  import opened PyText
  import opened Calendar
  import opened Lists
  import opened ConfigMessages
  import opened ConfigTypes
  import opened ConfigSpec

  // ---------------------------------------------------------------------
  // A completed pass
  // ---------------------------------------------------------------------

  /** In realtime mode the second call of the lookback resolver (line 395) sees
      the inputs of the first (line 305) and leaves the window as it was. */
  lemma LookbackStable(env: Env, st: ConfigState)
    requires ResolveUpToRegridding(env, st).Success?
    ensures ConfirmLookback(env, ResolveUpToRegridding(env, st).value) == ResolveUpToRegridding(env, st).value
  {
    var s := ResolveUpToRegridding(env, st).value;
    if IsRealtime(s) {
      assert s.bDateProc == At(LookbackWindow(env, s).0);
      assert s.eDateProc == At(LookbackWindow(env, s).1);
    }
  }

  /** A completed pass establishes everything the blocks of read_config check,
      and leaves the configuration path and the start time alone. */
  lemma ResolveSound(env: Env, st: ConfigState)
    requires Resolve(env, st).Success?
    ensures Resolved(env, Resolve(env, st).value)
    ensures Resolve(env, st).value.configPath == st.configPath
    ensures Resolve(env, st).value.programInit == st.programInit
  {
    var s := ResolveUpToRegridding(env, st).value;
    LookbackStable(env, st);
    assert Resolve(env, st) == ReadInterpolation(env, s);
  }

  /** Exactly one of the three modes is selected. */
  lemma ExactlyOneMode(st: ConfigState)
    requires ModeSelected(st) && (st.retroFlag == Some(0) || st.retroFlag == Some(1))
    ensures (if IsRetro(st) then 1 else 0) + (if IsRealtime(st) then 1 else 0)
      + (if IsReforecast(st) then 1 else 0) == 1
  {
  }

  /** Every per-input array of a completed pass has one entry per input. */
  lemma ResolvedArrayLengths(env: Env, st: ConfigState)
    requires Resolve(env, st).Success?
    ensures var r := Resolve(env, st).value;
      && r.numberInputs.Some?
      && var n := r.numberInputs.value;
      && n > 0
      && |r.inputForcings.value| == n && |r.inputForceDirs.value| == n
      && |r.regridOpt.value| == n && InterpLengths(r, n)
      && (r.retroFlag == Some(0) ==>
           |r.fcstInputHorizons.value| == n && |r.fcstInputOffsets.value| == n)
  {
    ResolveSound(env, st);
  }

  /** The retrospective window has positive length, and the step count is the
      number of whole output periods in it. */
  lemma RetroSteps(st: ConfigState)
    requires st.outputFreq.Some? && st.outputFreq.value > 0
    requires IsRetro(st) && RetroWindow(st)
    ensures var span := SpanMinutes(st.bDateProc.when, st.eDateProc.when);
      && span > 0
      && st.numOutputSteps.Some?
      && st.numOutputSteps.value >= 0
      && st.numOutputSteps.value * st.outputFreq.value <= span
      && span < (st.numOutputSteps.value + 1) * st.outputFreq.value
  {
    BeforeIffMinutes(st.bDateProc.when, st.eDateProc.when);
    DivBounds(SpanMinutes(st.bDateProc.when, st.eDateProc.when), st.outputFreq.value);
  }

  /** Floor division: the quotient counts the whole periods in a. */
  lemma DivBounds(a: int, b: int)
    requires a >= 0 && b > 0
    ensures a / b >= 0
    ensures (a / b) * b <= a < (a / b + 1) * b
  {
    var q := a / b;
    var r := a % b;
    assert a == q * b + r;
    assert (q + 1) * b == q * b + b;
  }

  /** A reforecast issues at least one forecast, and the forecasts tile the window. */
  lemma ReforecastCount(st: ConfigState)
    requires IsReforecast(st) && ReforecastWindow(st) && ForecastSettings(st)
      && st.retroFlag == Some(0)
    ensures st.nFcsts.Some? && st.nFcsts.value >= 1
    ensures st.nFcsts.value * st.fcstFreq.value == SpanMinutes(st.bDateProc.when, st.eDateProc.when)
  {
    BeforeIffMinutes(st.bDateProc.when, st.eDateProc.when);
  }

  /** Realtime and retrospective runs never set the number of forecasts. */
  lemma ForecastCountOnlyReforecast(env: Env, st: ConfigState)
    requires InputsValid(env, st) && ResolveWindow(env, st).Success?
    ensures !IsReforecast(ResolveWindow(env, st).value) ==> ResolveWindow(env, st).value.nFcsts == st.nFcsts
  {
    var s1 := ResolveMode(env, st).value;
    assert s1.nFcsts == ResolveWindow(env, st).value.nFcsts;
  }

  /** A retrospective run leaves every forecast-mode field as it was. */
  lemma RetroLeavesForecastFields(env: Env, st: ConfigState)
    requires InputsValid(env, st) && IsRetro(st) && ResolveWindow(env, st).Success?
    ensures var r := ResolveWindow(env, st).value;
      && r.lookBack == st.lookBack && r.fcstFreq == st.fcstFreq && r.fcstShift == st.fcstShift
      && r.nFcsts == st.nFcsts && r.fcstInputHorizons == st.fcstInputHorizons
      && r.fcstInputOffsets == st.fcstInputOffsets && r.cycleLengthMinutes == st.cycleLengthMinutes
  {
    var s1 := ResolveMode(env, st).value;
    assert ResolveWindow(env, st) == ResolveCycle(env, s1);
  }

  // ---------------------------------------------------------------------
  // Failing stages end the pass
  // ---------------------------------------------------------------------

  /** An error in the inputs blocks is the error of the whole pass. */
  lemma InputsErrorIsFinal(env: Env, st: ConfigState)
    requires ResolveInputs(env, st).Failure?
    ensures Resolve(env, st) == Failure(ResolveInputs(env, st).error)
  {
  }

  /** An error in the mode blocks is the error of the whole pass. */
  lemma ModeErrorIsFinal(env: Env, st: ConfigState, s1: ConfigState)
    requires ResolveInputs(env, st) == Success(s1)
    requires ResolveMode(env, s1).Failure?
    ensures Resolve(env, st) == Failure(ResolveMode(env, s1).error)
  {
    assert ResolveWindow(env, s1) == Failure(ResolveMode(env, s1).error);
  }

  // ---------------------------------------------------------------------
  // Stage by stage
  // ---------------------------------------------------------------------

  /** The first directory that does not exist is the one reported, and the
      pass goes no further. */
  lemma MissingDirectory(env: Env, st: ConfigState, text: string, k: nat)
    requires Lookup(env, "Input", "InputForcingDirectories") == Some(text)
    requires st.numberInputs == Some(|Split(text, ',')|)
    requires k < |Split(text, ',')|
    requires !env.isDir(Strip(Split(text, ',')[k]))
    requires forall j :: 0 <= j < k ==> env.isDir(Strip(Split(text, ',')[j]))
    ensures ReadInputDirectories(env, st)
      == Failure(ConfigError(ResourceNotFound, ForceDirMissing(Strip(Split(text, ',')[k]))))
  {
    var dirs := StripAll(Split(text, ','));
    assert !env.isDir(dirs[k]);
    assert forall j :: 0 <= j < k ==> env.isDir(dirs[j]);
  }

  /** With every directory present the stripped entries are stored, one per input. */
  lemma DirectoriesStored(env: Env, st: ConfigState, text: string)
    requires Lookup(env, "Input", "InputForcingDirectories") == Some(text)
    requires st.numberInputs == Some(|Split(text, ',')|)
    requires forall j :: 0 <= j < |Split(text, ',')| ==> env.isDir(Strip(Split(text, ',')[j]))
    ensures ReadInputDirectories(env, st)
      == Success(st.(inputForceDirs := Some(StripAll(Split(text, ',')))))
  {
    var dirs := StripAll(Split(text, ','));
    assert forall j :: 0 <= j < |dirs| ==> env.isDir(dirs[j]);
  }

  /** Only RetroFlag 0 and 1 are accepted. */
  lemma RetroFlagValues(env: Env, st: ConfigState, flag: int)
    requires Lookup(env, "Retrospective", "RetroFlag") == Some(ShowInt(flag))
    ensures ReadRetroFlag(env, st).Success? <==> flag == 0 || flag == 1
    ensures ReadRetroFlag(env, st).Success? ==> ReadRetroFlag(env, st).value.retroFlag == Some(flag)
  {
    ParseShowInt(flag);
  }

  /** A LookBack is accepted exactly when it is positive or -9999. */
  lemma LookBackValues(env: Env, st: ConfigState, lookBack: int)
    requires st.retroFlag == Some(0)
    requires Lookup(env, "Forecast", "LookBack") == Some(ShowInt(lookBack))
    ensures lookBack <= 0 && lookBack != SENTINEL ==>
      ForecastMode(env, st) == Failure(ConfigError(RangeError, LookBackRange))
    ensures lookBack > 0 ==>
      ForecastMode(env, st) == Success(st.(lookBack := Some(lookBack), realtimeFlag := Some(true),
        refcstFlag := Some(false), bDateProc := Sentinel, eDateProc := Sentinel))
  {
    ParseShowInt(lookBack);
  }

  /** Retrospective with a sentinel begin and a real end is rejected. */
  lemma RetroBeginSentinelRejected(env: Env, st: ConfigState, e: DateTime)
    requires st.outputFreq.Some? && st.outputFreq.value > 0 && IsRetro(st)
    requires Valid(e)
    requires Lookup(env, "Retrospective", "BDateProc") == Some("-9999")
    requires Lookup(env, "Retrospective", "EDateProc") == Some(FormatStamp(e))
    ensures RetrospectiveWindow(env, st)
      == Failure(ConfigError(CrossFieldInconsistency, RetroBeginSentinel))
  {
    DateRoundTrip(env, "Retrospective", "EDateProc", EDateMissing, EDateLength, EDateImproper, e);
  }

  /** Retrospective with a real begin and a sentinel end is rejected. */
  lemma RetroEndSentinelRejected(env: Env, st: ConfigState, b: DateTime)
    requires st.outputFreq.Some? && st.outputFreq.value > 0 && IsRetro(st)
    requires Valid(b)
    requires Lookup(env, "Retrospective", "BDateProc") == Some(FormatStamp(b))
    requires Lookup(env, "Retrospective", "EDateProc") == Some("-9999")
    ensures RetrospectiveWindow(env, st)
      == Failure(ConfigError(CrossFieldInconsistency, RetroEndSentinel))
  {
    DateRoundTrip(env, "Retrospective", "BDateProc", BDateMissing, BDateLength, BDateImproper, b);
  }

  /** Retrospective with both dates at the sentinel passes the date checks and
      then fails computing the step count: it is never accepted. */
  lemma RetroBothSentinelsCrash(env: Env, st: ConfigState)
    requires st.outputFreq.Some? && st.outputFreq.value > 0 && IsRetro(st)
    requires Lookup(env, "Retrospective", "BDateProc") == Some("-9999")
    requires Lookup(env, "Retrospective", "EDateProc") == Some("-9999")
    ensures RetrospectiveWindow(env, st) == Failure(ConfigError(Unhandled, NoDaysAttribute))
  {
  }

  /** A retrospective window with an end that is not after its begin is rejected. */
  lemma RetroOrderRejected(env: Env, st: ConfigState, b: DateTime, e: DateTime)
    requires st.outputFreq.Some? && st.outputFreq.value > 0 && IsRetro(st)
    requires Valid(b) && Valid(e) && !Before(b, e)
    requires Lookup(env, "Retrospective", "BDateProc") == Some(FormatStamp(b))
    requires Lookup(env, "Retrospective", "EDateProc") == Some(FormatStamp(e))
    ensures RetrospectiveWindow(env, st) == Failure(ConfigError(CrossFieldInconsistency, RetroOrder))
  {
    DateRoundTrip(env, "Retrospective", "BDateProc", BDateMissing, BDateLength, BDateImproper, b);
    DateRoundTrip(env, "Retrospective", "EDateProc", EDateMissing, EDateLength, EDateImproper, e);
  }

  /** A retrospective window of two written dates, the end after the begin, is
      accepted with those dates and the whole output periods between them. */
  lemma RetroAccepted(env: Env, st: ConfigState, b: DateTime, e: DateTime)
    requires st.outputFreq.Some? && st.outputFreq.value > 0 && IsRetro(st)
    requires Valid(b) && Valid(e) && Before(b, e)
    requires Lookup(env, "Retrospective", "BDateProc") == Some(FormatStamp(b))
    requires Lookup(env, "Retrospective", "EDateProc") == Some(FormatStamp(e))
    ensures RetrospectiveWindow(env, st)
      == Success(st.(realtimeFlag := Some(false), refcstFlag := Some(false),
           bDateProc := At(b), eDateProc := At(e),
           numOutputSteps := Some(SpanMinutes(b, e) / st.outputFreq.value)))
  {
    DateRoundTrip(env, "Retrospective", "BDateProc", BDateMissing, BDateLength, BDateImproper, b);
    DateRoundTrip(env, "Retrospective", "EDateProc", EDateMissing, EDateLength, EDateImproper, e);
  }

  /** With LookBack -9999, a reforecast begin of -9999 is rejected before the
      end is read. */
  lemma RefcstBeginSentinelRejected(env: Env, st: ConfigState)
    requires st.retroFlag == Some(0)
    requires Lookup(env, "Forecast", "LookBack") == Some(ShowInt(SENTINEL))
    requires Lookup(env, "Forecast", "RefcstBDateProc") == Some("-9999")
    ensures ForecastMode(env, st) == Failure(ConfigError(MissingKey, NoReforecastRange))
  {
    ParseShowInt(SENTINEL);
  }

  /** With LookBack -9999 and a written reforecast begin, an end of -9999 is rejected. */
  lemma RefcstEndSentinelRejected(env: Env, st: ConfigState, b: DateTime)
    requires st.retroFlag == Some(0) && Valid(b)
    requires Lookup(env, "Forecast", "LookBack") == Some(ShowInt(SENTINEL))
    requires Lookup(env, "Forecast", "RefcstBDateProc") == Some(FormatStamp(b))
    requires Lookup(env, "Forecast", "RefcstEDateProc") == Some("-9999")
    ensures ForecastMode(env, st) == Failure(ConfigError(MissingKey, NoReforecastRange))
  {
    ParseShowInt(SENTINEL);
    DateRoundTrip(env, "Forecast", "RefcstBDateProc",
      RefcstBDateMissing, RefcstBDateLength, RefcstBDateImproper, b);
  }

  /** A reforecast window with an end that is not after its begin is rejected. */
  lemma RefcstOrderRejected(env: Env, st: ConfigState, b: DateTime, e: DateTime)
    requires st.retroFlag == Some(0) && Valid(b) && Valid(e) && !Before(b, e)
    requires Lookup(env, "Forecast", "LookBack") == Some(ShowInt(SENTINEL))
    requires Lookup(env, "Forecast", "RefcstBDateProc") == Some(FormatStamp(b))
    requires Lookup(env, "Forecast", "RefcstEDateProc") == Some(FormatStamp(e))
    ensures ForecastMode(env, st) == Failure(ConfigError(CrossFieldInconsistency, RefcstOrder))
  {
    ParseShowInt(SENTINEL);
    DateRoundTrip(env, "Forecast", "RefcstBDateProc",
      RefcstBDateMissing, RefcstBDateLength, RefcstBDateImproper, b);
    DateRoundTrip(env, "Forecast", "RefcstEDateProc",
      RefcstEDateMissing, RefcstEDateLength, RefcstEDateImproper, e);
  }

  /** LookBack -9999 with two written dates, the end after the begin, selects a
      reforecast over exactly those dates. */
  lemma ReforecastAccepted(env: Env, st: ConfigState, b: DateTime, e: DateTime)
    requires st.retroFlag == Some(0) && Valid(b) && Valid(e) && Before(b, e)
    requires Lookup(env, "Forecast", "LookBack") == Some(ShowInt(SENTINEL))
    requires Lookup(env, "Forecast", "RefcstBDateProc") == Some(FormatStamp(b))
    requires Lookup(env, "Forecast", "RefcstEDateProc") == Some(FormatStamp(e))
    ensures ForecastMode(env, st)
      == Success(st.(lookBack := Some(SENTINEL), realtimeFlag := Some(false), refcstFlag := Some(true),
           bDateProc := At(b), eDateProc := At(e)))
  {
    ParseShowInt(SENTINEL);
    DateRoundTrip(env, "Forecast", "RefcstBDateProc",
      RefcstBDateMissing, RefcstBDateLength, RefcstBDateImproper, b);
    DateRoundTrip(env, "Forecast", "RefcstEDateProc",
      RefcstEDateMissing, RefcstEDateLength, RefcstEDateImproper, e);
  }

  /** An OutputFrequency written by `str` is accepted exactly when positive, and stored. */
  lemma OutputFrequencyValues(env: Env, st: ConfigState, n: int)
    requires Lookup(env, "Output", "OutputFrequency") == Some(ShowInt(n))
    ensures ReadOutputFrequency(env, st)
      == if n > 0 then Success(st.(outputFreq := Some(n)))
         else Failure(ConfigError(RangeError, OutputFreqRange))
  {
    ParseShowInt(n);
  }

  /** A ForecastFrequency is accepted exactly when in 1..1440, and stored. */
  lemma ForecastFrequencyValues(env: Env, st: ConfigState, n: int)
    requires st.retroFlag == Some(0)
    requires Lookup(env, "Forecast", "ForecastFrequency") == Some(ShowInt(n))
    ensures ReadForecastFrequency(env, st)
      == if n <= 0 then Failure(ConfigError(RangeError, FcstFreqPositive))
         else if n > 1440 then Failure(ConfigError(RangeError, FcstFreqDaily))
         else Success(st.(fcstFreq := Some(n)))
  {
    ParseShowInt(n);
  }

  /** In realtime a ForecastShift is accepted exactly when at least zero; it is
      stored and the lookback resolver's window becomes the processing window. */
  lemma ForecastShiftValues(env: Env, st: ConfigState, n: int)
    requires st.retroFlag == Some(0) && IsRealtime(st) && st.lookBack.Some? && st.fcstFreq.Some?
    requires Lookup(env, "Forecast", "ForecastShift") == Some(ShowInt(n))
    ensures ReadForecastShift(env, st)
      == if n < 0 then Failure(ConfigError(RangeError, FcstShiftRange))
         else
           var w := LookbackWindow(env, st.(fcstShift := Some(n)));
           Success(st.(fcstShift := Some(n), bDateProc := At(w.0), eDateProc := At(w.1)))
  {
    ParseShowInt(n);
  }

  /** Forecast horizons written by `json.dumps` are accepted exactly when there is
      one per input and each is at least 1, and then stored as written. */
  lemma HorizonsAccepted(env: Env, st: ConfigState, xs: seq<int>)
    requires st.numberInputs.Some? && st.retroFlag == Some(0)
    requires Lookup(env, "Forecast", "ForecastInputHorizons") == Some(ShowIntList(xs))
    ensures ReadHorizons(env, st).Success? <==> |xs| == st.numberInputs.value && AllAtLeast(xs, 1)
    ensures ReadHorizons(env, st).Success? ==> ReadHorizons(env, st).value == st.(fcstInputHorizons := Some(xs))
  {
    ParseShowIntList(xs);
  }

  /** Forecast offsets written by `json.dumps` are accepted exactly when there is
      one per input and none is negative, and then stored as written. */
  lemma OffsetsAccepted(env: Env, st: ConfigState, xs: seq<int>)
    requires st.numberInputs.Some? && st.retroFlag == Some(0)
    requires Lookup(env, "Forecast", "ForecastInputOffsets") == Some(ShowIntList(xs))
    ensures ReadOffsets(env, st).Success? <==> |xs| == st.numberInputs.value && AllAtLeast(xs, 0)
    ensures ReadOffsets(env, st).Success? ==> ReadOffsets(env, st).value == st.(fcstInputOffsets := Some(xs))
  {
    ParseShowIntList(xs);
  }

  /** An interpolation list written by `json.dumps` is accepted exactly when it
      has one entry per input, and is then read back as itself. */
  lemma InterpAccepted(env: Env, v: InterpVar, n: int, xs: seq<int>)
    requires Lookup(env, "Interpolation", InterpKeyName(v)) == Some(ShowIntList(xs))
    ensures ReadInterp(env, v, n)
      == if |xs| == n then Success(xs) else Failure(ConfigError(ArrayLengthMismatch, InterpCount(v)))
  {
    ParseShowIntList(xs);
  }

  /** A reforecast window that is not a whole number of forecast periods is
      rejected; otherwise the number of forecasts is that number. */
  lemma ReforecastDivisibility(env: Env, st: ConfigState)
    requires st.retroFlag == Some(0) && IsReforecast(st)
    requires IsDate(st.bDateProc) && IsDate(st.eDateProc) && st.fcstFreq.Some? && st.fcstFreq.value > 0
    ensures var span := SpanMinutes(st.bDateProc.when, st.eDateProc.when);
      CountReforecasts(env, st) == if span % st.fcstFreq.value == 0
        then Success(st.(nFcsts := Some(span / st.fcstFreq.value)))
        else Failure(ConfigError(CrossFieldInconsistency, RefcstDivider))
  {
  }

  /** The cycle is the longest horizon and must be a whole number of output periods. */
  lemma CycleDivisibility(env: Env, st: ConfigState, cycle: int)
    requires st.retroFlag == Some(0)
    requires st.fcstInputHorizons.Some? && |st.fcstInputHorizons.value| > 0
    requires st.outputFreq.Some? && st.outputFreq.value > 0
    requires cycle in st.fcstInputHorizons.value
    requires forall i :: 0 <= i < |st.fcstInputHorizons.value| ==> st.fcstInputHorizons.value[i] <= cycle
    ensures CycleLength(env, st) == if cycle % st.outputFreq.value == 0
      then Success(st.(cycleLengthMinutes := Some(cycle), numOutputSteps := Some(cycle / st.outputFreq.value)))
      else Failure(ConfigError(CrossFieldInconsistency, CycleDivider))
  {
    MaxUnique(st.fcstInputHorizons.value, cycle);
  }

  // ---------------------------------------------------------------------
  // Worked examples
  // ---------------------------------------------------------------------

  /** 2020-01-01 00:00 and 2020-01-02 00:00. */
  function Jan1(): DateTime { DateTime(2020, 1, 1, 0, 0) }
  function Jan2(): DateTime { DateTime(2020, 1, 2, 0, 0) }

  lemma OneDay()
    ensures Valid(Jan1()) && Valid(Jan2()) && Before(Jan1(), Jan2())
    ensures SpanMinutes(Jan1(), Jan2()) == 1440
  {
  }

  /** A one-day retrospective window at hourly output has 24 output steps. */
  lemma RetroOneDayHourly(env: Env, st: ConfigState)
    requires st.outputFreq == Some(60) && IsRetro(st)
    requires Lookup(env, "Retrospective", "BDateProc") == Some(FormatStamp(Jan1()))
    requires Lookup(env, "Retrospective", "EDateProc") == Some(FormatStamp(Jan2()))
    ensures RetrospectiveWindow(env, st).Success?
    ensures RetrospectiveWindow(env, st).value.numOutputSteps == Some(24)
  {
    OneDay();
    DateRoundTrip(env, "Retrospective", "BDateProc", BDateMissing, BDateLength, BDateImproper, Jan1());
    DateRoundTrip(env, "Retrospective", "EDateProc", EDateMissing, EDateLength, EDateImproper, Jan2());
  }

  /** A one-day reforecast window holds 4 six-hourly forecasts, and no whole
      number of 500-minute forecasts. */
  lemma ReforecastOneDay(env: Env, st: ConfigState)
    requires st.retroFlag == Some(0) && IsReforecast(st)
    requires st.bDateProc == At(Jan1()) && st.eDateProc == At(Jan2())
    ensures st.fcstFreq == Some(360) ==> CountReforecasts(env, st) == Success(st.(nFcsts := Some(4)))
    ensures st.fcstFreq == Some(500) ==>
      CountReforecasts(env, st) == Failure(ConfigError(CrossFieldInconsistency, RefcstDivider))
  {
    OneDay();
  }

  /** Horizons of 180 and 360 minutes make a 360-minute cycle: 4 steps of 90
      minutes, and no whole number of 70-minute steps. */
  lemma CycleExample(env: Env, st: ConfigState)
    requires st.retroFlag == Some(0) && st.fcstInputHorizons == Some([180, 360])
    ensures st.outputFreq == Some(90) ==>
      CycleLength(env, st) == Success(st.(cycleLengthMinutes := Some(360), numOutputSteps := Some(4)))
    ensures st.outputFreq == Some(70) ==>
      CycleLength(env, st) == Failure(ConfigError(CrossFieldInconsistency, CycleDivider))
  {
    MaxUnique([180, 360], 360);
  }

  // ---------------------------------------------------------------------
  // Values written by json.dumps, str and strftime read back
  // ---------------------------------------------------------------------

  /** A list written by `json.dumps` is read back as itself. */
  lemma ListRoundTrip(env: Env, section: string, key: string, missing: Message, improper: Message,
                      xs: seq<int>)
    requires Lookup(env, section, key) == Some(ShowIntList(xs))
    ensures ReadList(env, section, key, missing, improper) == Success(xs)
  {
    ParseShowIntList(xs);
  }

  /** An integer written by `str` is read back as itself. */
  lemma IntRoundTrip(env: Env, section: string, key: string, missing: Message, improper: Message, n: int)
    requires Lookup(env, section, key) == Some(ShowInt(n))
    ensures ReadInt(env, section, key, missing, improper) == Success(n)
  {
    ParseShowInt(n);
  }

  /** A date written by `strftime('%Y%m%d%H%M')` is read back as itself. */
  lemma DateRoundTrip(env: Env, section: string, key: string, missing: Message, badLength: Message,
                      improper: Message, d: DateTime)
    requires Valid(d)
    requires Lookup(env, section, key) == Some(FormatStamp(d))
    ensures ReadDate(env, section, key, missing, badLength, improper) == Success(At(d))
  {
    SentinelNotStamp(d);
    ParseFormat(d);
  }

  /** Forcing codes written by `json.dumps` are accepted exactly when the list is
      non-empty and every code is in 0..10, and then stored as written. */
  lemma ForcingsAccepted(env: Env, st: ConfigState, xs: seq<int>)
    requires Lookup(env, "Input", "InputForcings") == Some(ShowIntList(xs))
    ensures ReadInputForcings(env, st).Success? <==> |xs| > 0 && AllWithin(xs, 0, 10)
    ensures ReadInputForcings(env, st).Success? ==>
      ReadInputForcings(env, st).value == st.(inputForcings := Some(xs), numberInputs := Some(|xs|))
  {
    ParseShowIntList(xs);
  }

  /** Regridding codes written by `json.dumps` are accepted exactly when there is
      one per input and each is in 1..3. */
  lemma RegridAccepted(env: Env, st: ConfigState, xs: seq<int>)
    requires st.numberInputs.Some?
    requires Lookup(env, "Regridding", "RegridOpt") == Some(ShowIntList(xs))
    ensures ReadRegridding(env, st).Success? <==> |xs| == st.numberInputs.value && AllWithin(xs, 1, 3)
    ensures ReadRegridding(env, st).Success? ==> ReadRegridding(env, st).value == st.(regridOpt := Some(xs))
  {
    ParseShowIntList(xs);
  }

  // ---------------------------------------------------------------------
  // A configuration that gets through
  // ---------------------------------------------------------------------

  /** One in-range forcing code, its directory, a positive output frequency, an
      existing output directory and RetroFlag 1 get through the inputs blocks. */
  lemma RetroInputsAccepted(env: Env, st: ConfigState, code: int, dir: string, freq: int, out: string)
    requires 0 <= code <= 10 && freq > 0
    requires ',' !in dir && IsStripped(dir) && env.isDir(dir) && env.isDir(out)
    requires Lookup(env, "Input", "InputForcings") == Some(ShowIntList([code]))
    requires Lookup(env, "Input", "InputForcingDirectories") == Some(dir)
    requires Lookup(env, "Output", "OutputFrequency") == Some(ShowInt(freq))
    requires Lookup(env, "Output", "OutDir") == Some(out)
    requires Lookup(env, "Retrospective", "RetroFlag") == Some(ShowInt(1))
    ensures ResolveInputs(env, st)
      == Success(st.(inputForcings := Some([code]), numberInputs := Some(1), inputForceDirs := Some([dir]),
           outputFreq := Some(freq), outputDir := Some(out), retroFlag := Some(1)))
  {
    var s1 := st.(inputForcings := Some([code]), numberInputs := Some(1));
    ForcingsAccepted(env, st, [code]);
    SplitSinglePiece(dir, ',');
    StripStripped(dir);
    assert StripAll([dir]) == [dir];
    DirectoriesStored(env, s1, dir);
    var s2 := s1.(inputForceDirs := Some([dir]));
    OutputFrequencyValues(env, s2, freq);
    RetroFlagValues(env, s2.(outputFreq := Some(freq), outputDir := Some(out)), 1);
  }

  /** In retrospective mode the window blocks set the dates and leave every
      forecast field alone. */
  lemma RetroWindowAccepted(env: Env, st: ConfigState, b: DateTime, e: DateTime)
    requires InputsValid(env, st) && IsRetro(st)
    requires Valid(b) && Valid(e) && Before(b, e)
    requires Lookup(env, "Retrospective", "BDateProc") == Some(FormatStamp(b))
    requires Lookup(env, "Retrospective", "EDateProc") == Some(FormatStamp(e))
    ensures ResolveWindow(env, st)
      == Success(st.(realtimeFlag := Some(false), refcstFlag := Some(false),
           bDateProc := At(b), eDateProc := At(e),
           numOutputSteps := Some(SpanMinutes(b, e) / st.outputFreq.value)))
  {
    RetroAccepted(env, st, b, e);
  }

  /** One regridding code in 1..3 gets through for a one-input run. */
  lemma OneInputRegridAccepted(env: Env, st: ConfigState, regrid: int)
    requires st.numberInputs == Some(1) && 1 <= regrid <= 3
    requires Lookup(env, "Regridding", "RegridOpt") == Some(ShowIntList([regrid]))
    ensures ReadRegridding(env, st) == Success(st.(regridOpt := Some([regrid])))
  {
    RegridAccepted(env, st, [regrid]);
  }

  /** Eight one-entry interpolation lists get through for a one-input run. */
  lemma OneInputInterpolationAccepted(env: Env, st: ConfigState, interp: int)
    requires st.numberInputs == Some(1)
    requires forall v :: Lookup(env, "Interpolation", InterpKeyName(v)) == Some(ShowIntList([interp]))
    ensures ReadInterpolation(env, st)
      == Success(st.(t2Interp := Some([interp]), q2Interp := Some([interp]), uInterp := Some([interp]),
           vInterp := Some([interp]), swInterp := Some([interp]), lwInterp := Some([interp]),
           precipInterp := Some([interp]), psfcInterp := Some([interp])))
  {
    InterpAccepted(env, T2, 1, [interp]);
    InterpAccepted(env, Q2, 1, [interp]);
    InterpAccepted(env, U, 1, [interp]);
    InterpAccepted(env, V, 1, [interp]);
    InterpAccepted(env, Sw, 1, [interp]);
    InterpAccepted(env, Lw, 1, [interp]);
    InterpAccepted(env, Precip, 1, [interp]);
    InterpAccepted(env, Psfc, 1, [interp]);
  }

  /** A one-input retrospective configuration whose values are all in range, with
      its directories and grid file present, gets through the whole pass and is
      stored as written. */
  lemma RetroConfigurationAccepted(env: Env, st: ConfigState, code: int, dir: string, freq: int,
                                   out: string, b: DateTime, e: DateTime, geo: string, regrid: int,
                                   interp: int)
    requires 0 <= code <= 10 && freq > 0 && 1 <= regrid <= 3
    requires ',' !in dir && IsStripped(dir) && env.isDir(dir) && env.isDir(out) && env.isFile(geo)
    requires Valid(b) && Valid(e) && Before(b, e)
    requires Lookup(env, "Input", "InputForcings") == Some(ShowIntList([code]))
    requires Lookup(env, "Input", "InputForcingDirectories") == Some(dir)
    requires Lookup(env, "Output", "OutputFrequency") == Some(ShowInt(freq))
    requires Lookup(env, "Output", "OutDir") == Some(out)
    requires Lookup(env, "Retrospective", "RetroFlag") == Some(ShowInt(1))
    requires Lookup(env, "Retrospective", "BDateProc") == Some(FormatStamp(b))
    requires Lookup(env, "Retrospective", "EDateProc") == Some(FormatStamp(e))
    requires Lookup(env, "Geospatial", "GeogridIn") == Some(geo)
    requires Lookup(env, "Regridding", "RegridOpt") == Some(ShowIntList([regrid]))
    requires forall v :: Lookup(env, "Interpolation", InterpKeyName(v)) == Some(ShowIntList([interp]))
    ensures Resolve(env, st)
      == Success(st.(inputForcings := Some([code]), numberInputs := Some(1), inputForceDirs := Some([dir]),
           outputFreq := Some(freq), outputDir := Some(out), retroFlag := Some(1),
           realtimeFlag := Some(false), refcstFlag := Some(false), bDateProc := At(b), eDateProc := At(e),
           numOutputSteps := Some(SpanMinutes(b, e) / freq), geogrid := Some(geo), regridOpt := Some([regrid]),
           t2Interp := Some([interp]), q2Interp := Some([interp]), uInterp := Some([interp]),
           vInterp := Some([interp]), swInterp := Some([interp]), lwInterp := Some([interp]),
           precipInterp := Some([interp]), psfcInterp := Some([interp])))
  {
    RetroInputsAccepted(env, st, code, dir, freq, out);
    var s5 := ResolveInputs(env, st).value;
    RetroWindowAccepted(env, s5, b, e);
    var s6 := ResolveWindow(env, s5).value;
    var s7 := s6.(geogrid := Some(geo));
    OneInputRegridAccepted(env, s7, regrid);
    var s8 := s7.(regridOpt := Some([regrid]));
    OneInputInterpolationAccepted(env, s8, interp);
    PassOfStages(env, st, s5, s6, s7, s8);
  }

  /** The whole pass, given the result of each of its blocks. */
  lemma PassOfStages(env: Env, st: ConfigState, s5: ConfigState, s6: ConfigState, s7: ConfigState,
                     s8: ConfigState)
    requires ResolveInputs(env, st) == Success(s5)
    requires ResolveWindow(env, s5) == Success(s6)
    requires ReadGeogrid(env, s6) == Success(s7)
    requires ReadRegridding(env, s7) == Success(s8)
    requires !IsRealtime(s8)
    ensures Resolve(env, st) == ReadInterpolation(env, s8)
  {
  }
}
