/**
  `ConfigOptions.read_config` (core/configMod.py) as a sequence of stages, one per
  block of the source. Each stage takes the object's fields before the block to
  the fields after it, or to the error the block reports through
  `errMod.err_out_screen` (which ends the process). Each stage states which fields
  it sets, with everything else unchanged, and what holds of them when it
  completes.
 */
module ConfigSpec {
  import opened Wrappers
  import opened PyText
  import opened Calendar
  import opened Lists
  import opened ConfigTypes
  import opened ConfigMessages

  // ---------------------------------------------------------------------
  // Reading one key
  // ---------------------------------------------------------------------

  /** `config[section][key]`, or None where it raises KeyError. */
  function Lookup(env: Env, section: string, key: string): (r: Option<string>)
    ensures r.Some? <==> (section, key) in env.config
    ensures r.Some? ==> r.value == env.config[(section, key)]
  {
    if (section, key) in env.config then Some(env.config[(section, key)]) else None
  }

  function Reject<T>(kind: ErrorKind, message: Message): Result<T, ConfigError> {
    Failure(ConfigError(kind, message))
  }

  /** The integer `int(config[section][key])` gives, if the key is present and
      int() accepts its value. */
  function ConfiguredInt(env: Env, section: string, key: string): Option<int> {
    match Lookup(env, section, key)
    case None => None
    case Some(text) => ParseInt(text)
  }

  /** The list `json.loads(config[section][key])` gives, if the key is present
      and its value is a list of integers. */
  function ConfiguredList(env: Env, section: string, key: string): Option<seq<int>> {
    match Lookup(env, section, key)
    case None => None
    case Some(text) => ParseIntList(text)
  }

  /** `int(config[section][key])`: a missing key and a value int() rejects are
      reported with the two given messages. */
  function ReadInt(env: Env, section: string, key: string, missing: Message, improper: Message)
    : (r: Result<int, ConfigError>)
    ensures r.Success? <==> ConfiguredInt(env, section, key).Some?
    ensures r.Success? ==> r.value == ConfiguredInt(env, section, key).value
    ensures Lookup(env, section, key).None? ==> r == Failure(ConfigError(MissingKey, missing))
    ensures Lookup(env, section, key).Some? && r.Failure? ==> r.error == ConfigError(ParseError, improper)
  {
    match Lookup(env, section, key)
    case None => Reject(MissingKey, missing)
    case Some(text) =>
      match ParseInt(text)
      case None => Reject(ParseError, improper)
      case Some(n) => Success(n)
  }

  /** `json.loads(config[section][key])` for a list of integers. */
  function ReadList(env: Env, section: string, key: string, missing: Message, improper: Message)
    : (r: Result<seq<int>, ConfigError>)
    ensures r.Success? <==> ConfiguredList(env, section, key).Some?
    ensures r.Success? ==> r.value == ConfiguredList(env, section, key).value
    ensures Lookup(env, section, key).None? ==> r == Failure(ConfigError(MissingKey, missing))
    ensures Lookup(env, section, key).Some? && r.Failure? ==> r.error == ConfigError(ParseError, improper)
  {
    match Lookup(env, section, key)
    case None => Reject(MissingKey, missing)
    case Some(text) =>
      match ParseIntList(text)
      case None => Reject(ParseError, improper)
      case Some(xs) => Success(xs)
  }

  /** A date key: the text `-9999` is the sentinel; any other value must have 12
      characters and be accepted by `strptime(value, '%Y%m%d%H%M')`. */
  function ReadDate(env: Env, section: string, key: string, missing: Message, badLength: Message,
                    improper: Message): (r: Result<DateField, ConfigError>)
    ensures r.Success? ==> r.value.Sentinel? || IsDate(r.value)
    ensures Lookup(env, section, key).None? ==> r == Failure(ConfigError(MissingKey, missing))
    ensures r == Success(Sentinel) <==> Lookup(env, section, key) == Some("-9999")
    ensures var text := Lookup(env, section, key);
      text.Some? && text.value != "-9999" && |text.value| != 12 ==>
        r == Failure(ConfigError(ParseError, badLength))
    ensures var text := Lookup(env, section, key);
      text.Some? && |text.value| == 12 ==>
        r == match ParseStamp(text.value)
             case None => Failure(ConfigError(ParseError, improper))
             case Some(d) => Success(At(d))
  {
    match Lookup(env, section, key)
    case None => Reject(MissingKey, missing)
    case Some(text) =>
      if text == "-9999" then Success(Sentinel)
      else if |text| != 12 then Reject(ParseError, badLength)
      else
        match ParseStamp(text)
        case None => Reject(ParseError, improper)
        case Some(d) => Success(At(d))
  }

  /** The four date keys, each read as `ReadDate` reads it. */
  function RetroBegin(env: Env): Result<DateField, ConfigError> {
    ReadDate(env, "Retrospective", "BDateProc", BDateMissing, BDateLength, BDateImproper)
  }

  function RetroEnd(env: Env): Result<DateField, ConfigError> {
    ReadDate(env, "Retrospective", "EDateProc", EDateMissing, EDateLength, EDateImproper)
  }

  function RefcstBegin(env: Env): Result<DateField, ConfigError> {
    ReadDate(env, "Forecast", "RefcstBDateProc", RefcstBDateMissing, RefcstBDateLength, RefcstBDateImproper)
  }

  function RefcstEnd(env: Env): Result<DateField, ConfigError> {
    ReadDate(env, "Forecast", "RefcstEDateProc", RefcstEDateMissing, RefcstEDateLength, RefcstEDateImproper)
  }

  /** Both keys hold real dates, the end strictly after the begin. */
  predicate OrderedDates(b: Result<DateField, ConfigError>, e: Result<DateField, ConfigError>) {
    && b.Success? && b.value.At? && e.Success? && e.value.At?
    && Before(b.value.when, e.value.when)
  }

  predicate AllWithin(xs: seq<int>, lo: int, hi: int) {
    forall i :: 0 <= i < |xs| ==> lo <= xs[i] <= hi
  }

  predicate AllAtLeast(xs: seq<int>, lo: int) {
    forall i :: 0 <= i < |xs| ==> lo <= xs[i]
  }

  /** Every entry stripped of surrounding whitespace, as `str.strip` does. */
  function StripAll(parts: seq<string>): seq<string> {
    seq(|parts|, i requires 0 <= i < |parts| => Strip(parts[i]))
  }

  /** The first path that `present` rejects, if any. */
  function FirstMissing(present: string -> bool, paths: seq<string>): (k: Option<nat>)
    ensures k.Some? ==> k.value < |paths| && !present(paths[k.value])
    ensures k.Some? ==> forall j :: 0 <= j < k.value ==> present(paths[j])
    ensures k.None? ==> forall j :: 0 <= j < |paths| ==> present(paths[j])
  {
    if paths == [] then None
    else if !present(paths[0]) then Some(0)
    else
      match FirstMissing(present, paths[1..])
      case None => None
      case Some(k) => Some(k + 1)
  }

  /** The first missing path is determined by where it is. */
  lemma FirstMissingAt(present: string -> bool, paths: seq<string>, k: nat)
    requires k < |paths| && !present(paths[k])
    requires forall j :: 0 <= j < k ==> present(paths[j])
    ensures FirstMissing(present, paths) == Some(k)
  {
  }

  // ---------------------------------------------------------------------
  // The stages of read_config, in source order
  // ---------------------------------------------------------------------

  /** InputForcings: a non-empty JSON list of codes, each in 0..10 (the message
      says 1..10, the test admits 0); number_inputs is its length. */
  function ReadInputForcings(env: Env, st: ConfigState): (r: Result<ConfigState, ConfigError>)
    ensures r.Success? ==>
      r.value == st.(inputForcings := r.value.inputForcings, numberInputs := r.value.numberInputs)
    ensures r.Success? ==>
      && r.value.inputForcings.Some?
      && r.value.numberInputs == Some(|r.value.inputForcings.value|)
      && |r.value.inputForcings.value| > 0
      && AllWithin(r.value.inputForcings.value, 0, 10)
    ensures var xs := ConfiguredList(env, "Input", "InputForcings");
      && (r.Success? <==> xs.Some? && |xs.value| > 0 && AllWithin(xs.value, 0, 10))
      && (r.Success? ==> r.value == st.(inputForcings := xs, numberInputs := Some(|xs.value|)))
      && (xs == Some([]) ==> r == Failure(ConfigError(RangeError, InputForcingsEmpty)))
  {
    var xs :- ReadList(env, "Input", "InputForcings", InputForcingsMissing, InputForcingsImproper);
    if |xs| == 0 then
      Reject(RangeError, InputForcingsEmpty)
    else if !AllWithin(xs, 0, 10) then
      Reject(RangeError, InputForcingsRange)
    else
      Success(st.(inputForcings := Some(xs), numberInputs := Some(|xs|)))
  }

  /** InputForcingDirectories: the value split on commas, one entry per input,
      each entry stripped and an existing directory. The key is read with
      `config.get`, whose NoOptionError no `except KeyError` catches. */
  function ReadInputDirectories(env: Env, st: ConfigState): (r: Result<ConfigState, ConfigError>)
    requires st.numberInputs.Some?
    ensures r.Success? ==> r.value == st.(inputForceDirs := r.value.inputForceDirs)
    ensures r.Success? ==>
      && r.value.inputForceDirs.Some?
      && |r.value.inputForceDirs.value| == st.numberInputs.value
      && forall i :: 0 <= i < |r.value.inputForceDirs.value| ==>
           IsStripped(r.value.inputForceDirs.value[i]) && env.isDir(r.value.inputForceDirs.value[i])
  {
    match Lookup(env, "Input", "InputForcingDirectories")
    case None => Reject(Unhandled, ForceDirsNoOption)
    case Some(text) =>
      var parts := Split(text, ',');
      if |parts| != st.numberInputs.value then
        Reject(ArrayLengthMismatch, ForceDirsCount)
      else
        var dirs := StripAll(parts);
        match FirstMissing(env.isDir, dirs)
        case Some(k) => Reject(ResourceNotFound, ForceDirMissing(dirs[k]))
        case None => Success(st.(inputForceDirs := Some(dirs)))
  }

  /** OutputFrequency: an integer number of minutes, greater than zero. */
  function ReadOutputFrequency(env: Env, st: ConfigState): (r: Result<ConfigState, ConfigError>)
    ensures r.Success? ==> r.value == st.(outputFreq := r.value.outputFreq)
    ensures r.Success? ==> r.value.outputFreq.Some? && r.value.outputFreq.value > 0
    ensures var n := ConfiguredInt(env, "Output", "OutputFrequency");
      && (r.Success? <==> n.Some? && n.value > 0)
      && (r.Success? ==> r.value == st.(outputFreq := n))
      && (n.Some? && n.value <= 0 ==> r == Failure(ConfigError(RangeError, OutputFreqRange)))
  {
    var freq :- ReadInt(env, "Output", "OutputFrequency", OutputFreqMissing, OutputFreqImproper);
    if freq <= 0 then
      Reject(RangeError, OutputFreqRange)
    else
      Success(st.(outputFreq := Some(freq)))
  }

  /** OutDir: an existing directory. */
  function ReadOutputDir(env: Env, st: ConfigState): (r: Result<ConfigState, ConfigError>)
    ensures r.Success? ==> r.value == st.(outputDir := r.value.outputDir)
    ensures r.Success? ==> r.value.outputDir.Some? && env.isDir(r.value.outputDir.value)
    ensures var dir := Lookup(env, "Output", "OutDir");
      && (r.Success? <==> dir.Some? && env.isDir(dir.value))
      && (r.Success? ==> r.value == st.(outputDir := dir))
      && (dir.None? ==> r == Failure(ConfigError(MissingKey, OutDirMissing)))
      && (dir.Some? && !env.isDir(dir.value) ==>
            r == Failure(ConfigError(ResourceNotFound, OutDirNotFound(dir.value))))
  {
    match Lookup(env, "Output", "OutDir")
    case None => Reject(MissingKey, OutDirMissing)
    case Some(dir) =>
      if !env.isDir(dir) then
        Reject(ResourceNotFound, OutDirNotFound(dir))
      else
        Success(st.(outputDir := Some(dir)))
  }

  /** RetroFlag: 0 or 1. */
  function ReadRetroFlag(env: Env, st: ConfigState): (r: Result<ConfigState, ConfigError>)
    ensures r.Success? ==> r.value == st.(retroFlag := r.value.retroFlag)
    ensures r.Success? ==> r.value.retroFlag == Some(0) || r.value.retroFlag == Some(1)
    ensures var n := ConfiguredInt(env, "Retrospective", "RetroFlag");
      && (r.Success? <==> n == Some(0) || n == Some(1))
      && (r.Success? ==> r.value == st.(retroFlag := n))
      && (n.Some? && n.value != 0 && n.value != 1 ==> r == Failure(ConfigError(RangeError, RetroFlagRange)))
  {
    var flag :- ReadInt(env, "Retrospective", "RetroFlag", RetroFlagMissing, RetroFlagImproper);
    if flag < 0 || flag > 1 then
      Reject(RangeError, RetroFlagRange)
    else
      Success(st.(retroFlag := Some(flag)))
  }

  /**
    Retrospective mode (RetroFlag 1): both forecast flags off, BDateProc and
    EDateProc each the sentinel or a date, exactly one sentinel rejected, a
    concrete end strictly after a concrete begin, and the number of output steps
    the whole output periods in the window. Both dates at the sentinel pass the
    checks, and then `(-9999 - -9999).days` raises AttributeError.
   */
  function RetrospectiveWindow(env: Env, st: ConfigState): (r: Result<ConfigState, ConfigError>)
    requires st.outputFreq.Some? && st.outputFreq.value > 0
    ensures !IsRetro(st) ==> r == Success(st)
    ensures r.Success? && IsRetro(st) ==>
      r.value == st.(realtimeFlag := Some(false), refcstFlag := Some(false),
        bDateProc := r.value.bDateProc, eDateProc := r.value.eDateProc,
        numOutputSteps := r.value.numOutputSteps)
    ensures r.Success? && IsRetro(st) ==>
      && IsDate(r.value.bDateProc) && IsDate(r.value.eDateProc)
      && Before(r.value.bDateProc.when, r.value.eDateProc.when)
      && r.value.numOutputSteps
         == Some(SpanMinutes(r.value.bDateProc.when, r.value.eDateProc.when) / st.outputFreq.value)
    ensures IsRetro(st) ==> (r.Success? <==> OrderedDates(RetroBegin(env), RetroEnd(env)))
    ensures r.Success? && IsRetro(st) ==>
      r.value.bDateProc == RetroBegin(env).value && r.value.eDateProc == RetroEnd(env).value
  {
    if !IsRetro(st) then Success(st)
    else
      var s := st.(realtimeFlag := Some(false), refcstFlag := Some(false));
      var b :- ReadDate(env, "Retrospective", "BDateProc", BDateMissing, BDateLength, BDateImproper);
      var e :- ReadDate(env, "Retrospective", "EDateProc", EDateMissing, EDateLength, EDateImproper);
      if e.At? && b.Sentinel? then
        Reject(CrossFieldInconsistency, RetroBeginSentinel)
      else if e.At? && !Before(b.when, e.when) then
        Reject(CrossFieldInconsistency, RetroOrder)
      else if e.Sentinel? && b.At? then
        Reject(CrossFieldInconsistency, RetroEndSentinel)
      else if e.Sentinel? then
        Reject(Unhandled, NoDaysAttribute)
      else
        Success(s.(bDateProc := b, eDateProc := e,
          numOutputSteps := Some(SpanMinutes(b.when, e.when) / st.outputFreq.value)))
  }

  /**
    Forecast modes (RetroFlag 0): LookBack is -9999 (reforecast: both refcst
    dates mandatory, end strictly after begin) or positive (realtime: both dates
    left at the sentinel); any other LookBack is rejected.
   */
  function ForecastMode(env: Env, st: ConfigState): (r: Result<ConfigState, ConfigError>)
    ensures st.retroFlag != Some(0) ==> r == Success(st)
    ensures r.Success? && st.retroFlag == Some(0) ==>
      r.value == st.(lookBack := r.value.lookBack, realtimeFlag := r.value.realtimeFlag,
        refcstFlag := r.value.refcstFlag, bDateProc := r.value.bDateProc,
        eDateProc := r.value.eDateProc)
    ensures r.Success? && st.retroFlag == Some(0) ==>
      && r.value.lookBack.Some?
      && (IsReforecast(r.value) <==> r.value.lookBack.value == SENTINEL)
      && (IsRealtime(r.value) <==> r.value.lookBack.value > 0)
      && r.value.realtimeFlag.Some? && r.value.refcstFlag.Some?
      && (IsRealtime(r.value) != IsReforecast(r.value))
    ensures r.Success? && st.retroFlag == Some(0) && IsReforecast(r.value) ==>
      && IsDate(r.value.bDateProc) && IsDate(r.value.eDateProc)
      && Before(r.value.bDateProc.when, r.value.eDateProc.when)
    ensures r.Success? && st.retroFlag == Some(0) && IsRealtime(r.value) ==>
      r.value.bDateProc == Sentinel && r.value.eDateProc == Sentinel
    ensures var n := ConfiguredInt(env, "Forecast", "LookBack");
      st.retroFlag == Some(0) ==>
        && (r.Success? ==> r.value.lookBack == n)
        && (n.Some? && n.value <= 0 && n.value != SENTINEL ==>
              r == Failure(ConfigError(RangeError, LookBackRange)))
        && (n.Some? && n.value > 0 ==> r.Success? && IsRealtime(r.value))
        && (n == Some(SENTINEL) ==>
              && (r.Success? <==> OrderedDates(RefcstBegin(env), RefcstEnd(env)))
              && (r.Success? ==>
                    r.value.bDateProc == RefcstBegin(env).value && r.value.eDateProc == RefcstEnd(env).value))
  {
    if st.retroFlag != Some(0) then Success(st)
    else
      var lookBack :- ReadInt(env, "Forecast", "LookBack", LookBackMissing, LookBackImproper);
      if lookBack <= 0 && lookBack != SENTINEL then
        Reject(RangeError, LookBackRange)
      else if lookBack == SENTINEL then
        var b :- ReadDate(env, "Forecast", "RefcstBDateProc",
          RefcstBDateMissing, RefcstBDateLength, RefcstBDateImproper);
        if b.Sentinel? then Reject(MissingKey, NoReforecastRange)
        else
          var e :- ReadDate(env, "Forecast", "RefcstEDateProc",
            RefcstEDateMissing, RefcstEDateLength, RefcstEDateImproper);
          if e.Sentinel? then Reject(MissingKey, NoReforecastRange)
          else if !Before(b.when, e.when) then
            Reject(CrossFieldInconsistency, RefcstOrder)
          else
            Success(st.(lookBack := Some(lookBack), realtimeFlag := Some(false),
              refcstFlag := Some(true), bDateProc := b, eDateProc := e))
      else
        Success(st.(lookBack := Some(lookBack), realtimeFlag := Some(true),
          refcstFlag := Some(false), bDateProc := Sentinel, eDateProc := Sentinel))
  }

  /** ForecastFrequency (forecast modes): minutes in (0, 1440]. */
  function ReadForecastFrequency(env: Env, st: ConfigState): (r: Result<ConfigState, ConfigError>)
    ensures st.retroFlag != Some(0) ==> r == Success(st)
    ensures r.Success? && st.retroFlag == Some(0) ==> r.value == st.(fcstFreq := r.value.fcstFreq)
    ensures r.Success? && st.retroFlag == Some(0) ==>
      r.value.fcstFreq.Some? && 0 < r.value.fcstFreq.value <= 1440
    ensures var n := ConfiguredInt(env, "Forecast", "ForecastFrequency");
      st.retroFlag == Some(0) ==>
        && (r.Success? <==> n.Some? && 0 < n.value <= 1440)
        && (r.Success? ==> r.value == st.(fcstFreq := n))
        && (n.Some? && n.value <= 0 ==> r == Failure(ConfigError(RangeError, FcstFreqPositive)))
        && (n.Some? && n.value > 1440 ==> r == Failure(ConfigError(RangeError, FcstFreqDaily)))
  {
    if st.retroFlag != Some(0) then Success(st)
    else
      var freq :- ReadInt(env, "Forecast", "ForecastFrequency", FcstFreqMissing, FcstFreqImproper);
      if freq <= 0 then
        Reject(RangeError, FcstFreqPositive)
      else if freq > 1440 then
        Reject(RangeError, FcstFreqDaily)
      else
        Success(st.(fcstFreq := Some(freq)))
  }

  /** The window the lookback resolver computes from the object's fields. */
  function LookbackWindow(env: Env, st: ConfigState): (DateTime, DateTime)
    requires st.lookBack.Some? && st.fcstShift.Some? && st.fcstFreq.Some?
  {
    env.lookback(st.programInit, st.lookBack.value, st.fcstShift.value, st.fcstFreq.value)
  }

  /** ForecastShift (realtime only): at least zero; then the lookback resolver
      sets the processing window. */
  function ReadForecastShift(env: Env, st: ConfigState): (r: Result<ConfigState, ConfigError>)
    requires st.retroFlag == Some(0) && IsRealtime(st) ==> st.lookBack.Some? && st.fcstFreq.Some?
    ensures !(st.retroFlag == Some(0) && IsRealtime(st)) ==> r == Success(st)
    ensures r.Success? && st.retroFlag == Some(0) && IsRealtime(st) ==>
      r.value == st.(fcstShift := r.value.fcstShift, bDateProc := r.value.bDateProc,
        eDateProc := r.value.eDateProc)
    ensures r.Success? && st.retroFlag == Some(0) && IsRealtime(st) ==>
      && r.value.fcstShift.Some? && r.value.fcstShift.value >= 0
      && r.value.bDateProc == At(LookbackWindow(env, r.value).0)
      && r.value.eDateProc == At(LookbackWindow(env, r.value).1)
    ensures var n := ConfiguredInt(env, "Forecast", "ForecastShift");
      st.retroFlag == Some(0) && IsRealtime(st) ==>
        && (r.Success? <==> n.Some? && n.value >= 0)
        && (r.Success? ==> r.value.fcstShift == n)
        && (n.Some? && n.value < 0 ==> r == Failure(ConfigError(RangeError, FcstShiftRange)))
  {
    if !(st.retroFlag == Some(0) && IsRealtime(st)) then Success(st)
    else
      var shift :- ReadInt(env, "Forecast", "ForecastShift", FcstShiftMissing, FcstShiftImproper);
      if shift < 0 then
        Reject(RangeError, FcstShiftRange)
      else
        var s := st.(fcstShift := Some(shift));
        var w := LookbackWindow(env, s);
        Success(s.(bDateProc := At(w.0), eDateProc := At(w.1)))
  }

  /** Reforecast only: the window must be a whole number of forecast periods;
      nFcsts is that number. */
  function CountReforecasts(env: Env, st: ConfigState): (r: Result<ConfigState, ConfigError>)
    requires st.retroFlag == Some(0) && IsReforecast(st) ==>
      IsDate(st.bDateProc) && IsDate(st.eDateProc) && st.fcstFreq.Some? && st.fcstFreq.value > 0
    ensures !(st.retroFlag == Some(0) && IsReforecast(st)) ==> r == Success(st)
    ensures r.Success? && st.retroFlag == Some(0) && IsReforecast(st) ==>
      r.value == st.(nFcsts := r.value.nFcsts)
    ensures r.Success? && st.retroFlag == Some(0) && IsReforecast(st) ==>
      var span := SpanMinutes(st.bDateProc.when, st.eDateProc.when);
      r.value.nFcsts.Some? && r.value.nFcsts.value * st.fcstFreq.value == span
  {
    if !(st.retroFlag == Some(0) && IsReforecast(st)) then Success(st)
    else
      var span := SpanMinutes(st.bDateProc.when, st.eDateProc.when);
      if span % st.fcstFreq.value != 0 then
        Reject(CrossFieldInconsistency, RefcstDivider)
      else
        DivExact(span, st.fcstFreq.value);
        Success(st.(nFcsts := Some(span / st.fcstFreq.value)))
  }

  /** ForecastInputHorizons (forecast modes): one per input, each greater than zero. */
  function ReadHorizons(env: Env, st: ConfigState): (r: Result<ConfigState, ConfigError>)
    requires st.numberInputs.Some?
    ensures st.retroFlag != Some(0) ==> r == Success(st)
    ensures r.Success? && st.retroFlag == Some(0) ==>
      r.value == st.(fcstInputHorizons := r.value.fcstInputHorizons)
    ensures r.Success? && st.retroFlag == Some(0) ==>
      && r.value.fcstInputHorizons.Some?
      && |r.value.fcstInputHorizons.value| == st.numberInputs.value
      && AllAtLeast(r.value.fcstInputHorizons.value, 1)
    ensures var hs := ConfiguredList(env, "Forecast", "ForecastInputHorizons");
      st.retroFlag == Some(0) ==>
        && (r.Success? <==> hs.Some? && |hs.value| == st.numberInputs.value && AllAtLeast(hs.value, 1))
        && (r.Success? ==> r.value == st.(fcstInputHorizons := hs))
  {
    if st.retroFlag != Some(0) then Success(st)
    else
      var hs :- ReadList(env, "Forecast", "ForecastInputHorizons", HorizonsMissing, HorizonsImproper);
      if |hs| != st.numberInputs.value then
        Reject(ArrayLengthMismatch, HorizonsCount)
      else if !AllAtLeast(hs, 1) then
        Reject(RangeError, HorizonsRange)
      else
        Success(st.(fcstInputHorizons := Some(hs)))
  }

  /** ForecastInputOffsets (forecast modes): one per input, each at least zero. */
  function ReadOffsets(env: Env, st: ConfigState): (r: Result<ConfigState, ConfigError>)
    requires st.numberInputs.Some?
    ensures st.retroFlag != Some(0) ==> r == Success(st)
    ensures r.Success? && st.retroFlag == Some(0) ==>
      r.value == st.(fcstInputOffsets := r.value.fcstInputOffsets)
    ensures r.Success? && st.retroFlag == Some(0) ==>
      && r.value.fcstInputOffsets.Some?
      && |r.value.fcstInputOffsets.value| == st.numberInputs.value
      && AllAtLeast(r.value.fcstInputOffsets.value, 0)
    ensures var offs := ConfiguredList(env, "Forecast", "ForecastInputOffsets");
      st.retroFlag == Some(0) ==>
        && (r.Success? <==> offs.Some? && |offs.value| == st.numberInputs.value && AllAtLeast(offs.value, 0))
        && (r.Success? ==> r.value == st.(fcstInputOffsets := offs))
  {
    if st.retroFlag != Some(0) then Success(st)
    else
      var offs :- ReadList(env, "Forecast", "ForecastInputOffsets", OffsetsMissing, OffsetsImproper);
      if |offs| != st.numberInputs.value then
        Reject(ArrayLengthMismatch, OffsetsCount)
      else if !AllAtLeast(offs, 0) then
        Reject(RangeError, OffsetsRange)
      else
        Success(st.(fcstInputOffsets := Some(offs)))
  }

  /** Forecast modes: the cycle is the longest horizon, a whole number of output
      periods; the output steps are that number. */
  function CycleLength(env: Env, st: ConfigState): (r: Result<ConfigState, ConfigError>)
    requires st.retroFlag == Some(0) ==> st.fcstInputHorizons.Some? && |st.fcstInputHorizons.value| > 0
    requires st.outputFreq.Some? && st.outputFreq.value > 0
    ensures st.retroFlag != Some(0) ==> r == Success(st)
    ensures r.Success? && st.retroFlag == Some(0) ==>
      r.value == st.(cycleLengthMinutes := r.value.cycleLengthMinutes,
        numOutputSteps := r.value.numOutputSteps)
    ensures r.Success? && st.retroFlag == Some(0) ==>
      && r.value.cycleLengthMinutes == Some(Max(st.fcstInputHorizons.value))
      && r.value.numOutputSteps.Some?
      && r.value.numOutputSteps.value * st.outputFreq.value == r.value.cycleLengthMinutes.value
  {
    if st.retroFlag != Some(0) then Success(st)
    else
      var cycle := Max(st.fcstInputHorizons.value);
      if cycle % st.outputFreq.value != 0 then
        Reject(CrossFieldInconsistency, CycleDivider)
      else
        Success(st.(cycleLengthMinutes := Some(cycle), numOutputSteps := Some(cycle / st.outputFreq.value)))
  }

  /** GeogridIn: an existing file. */
  function ReadGeogrid(env: Env, st: ConfigState): (r: Result<ConfigState, ConfigError>)
    ensures r.Success? ==> r.value == st.(geogrid := r.value.geogrid)
    ensures r.Success? ==> r.value.geogrid.Some? && env.isFile(r.value.geogrid.value)
    ensures var path := Lookup(env, "Geospatial", "GeogridIn");
      && (r.Success? <==> path.Some? && env.isFile(path.value))
      && (r.Success? ==> r.value == st.(geogrid := path))
      && (path.None? ==> r == Failure(ConfigError(MissingKey, GeogridMissing)))
      && (path.Some? && !env.isFile(path.value) ==>
            r == Failure(ConfigError(ResourceNotFound, GeogridNotFound(path.value))))
  {
    match Lookup(env, "Geospatial", "GeogridIn")
    case None => Reject(MissingKey, GeogridMissing)
    case Some(path) =>
      if !env.isFile(path) then
        Reject(ResourceNotFound, GeogridNotFound(path))
      else
        Success(st.(geogrid := Some(path)))
  }

  /** RegridOpt: one code per input, each in 1..3. */
  function ReadRegridding(env: Env, st: ConfigState): (r: Result<ConfigState, ConfigError>)
    requires st.numberInputs.Some?
    ensures r.Success? ==> r.value == st.(regridOpt := r.value.regridOpt)
    ensures r.Success? ==>
      && r.value.regridOpt.Some?
      && |r.value.regridOpt.value| == st.numberInputs.value
      && AllWithin(r.value.regridOpt.value, 1, 3)
    ensures var opts := ConfiguredList(env, "Regridding", "RegridOpt");
      && (r.Success? <==> opts.Some? && |opts.value| == st.numberInputs.value && AllWithin(opts.value, 1, 3))
      && (r.Success? ==> r.value == st.(regridOpt := opts))
      && (opts.Some? && |opts.value| != st.numberInputs.value ==>
            r == Failure(ConfigError(ArrayLengthMismatch, RegridCount)))
  {
    var opts :- ReadList(env, "Regridding", "RegridOpt", RegridMissing, RegridImproper);
    if |opts| != st.numberInputs.value then
      Reject(ArrayLengthMismatch, RegridCount)
    else if !AllWithin(opts, 1, 3) then
      Reject(RangeError, RegridRange)
    else
      Success(st.(regridOpt := Some(opts)))
  }

  /** Realtime only: the lookback resolver is called a second time. */
  function ConfirmLookback(env: Env, st: ConfigState): (r: ConfigState)
    requires IsRealtime(st) ==> st.lookBack.Some? && st.fcstShift.Some? && st.fcstFreq.Some?
    ensures !IsRealtime(st) ==> r == st
    ensures IsRealtime(st) ==>
      r == st.(bDateProc := At(LookbackWindow(env, st).0), eDateProc := At(LookbackWindow(env, st).1))
  {
    if !IsRealtime(st) then st
    else
      var w := LookbackWindow(env, st);
      st.(bDateProc := At(w.0), eDateProc := At(w.1))
  }

  /** The configured list of one interpolation variable. */
  function InterpList(env: Env, v: InterpVar): Option<seq<int>> {
    ConfiguredList(env, "Interpolation", InterpKeyName(v))
  }

  /** The list of one interpolation variable is present, with n entries. */
  predicate InterpConfigured(env: Env, v: InterpVar, n: int) {
    InterpList(env, v).Some? && |InterpList(env, v).value| == n
  }

  /** One temporal-interpolation list: a JSON list with one entry per input. */
  function ReadInterp(env: Env, v: InterpVar, n: int): (r: Result<seq<int>, ConfigError>)
    ensures r.Success? ==> |r.value| == n
    ensures r.Success? <==> InterpConfigured(env, v, n)
    ensures r.Success? ==> r.value == InterpList(env, v).value
  {
    var xs :- ReadList(env, "Interpolation", InterpKeyName(v), InterpMissing(v), InterpImproper(v));
    if |xs| != n then Reject(ArrayLengthMismatch, InterpCount(v)) else Success(xs)
  }

  /** The eight temporal-interpolation lists, each with one entry per input. */
  function ReadInterpolation(env: Env, st: ConfigState): (r: Result<ConfigState, ConfigError>)
    requires st.numberInputs.Some?
    ensures r.Success? ==>
      r.value == st.(t2Interp := r.value.t2Interp, q2Interp := r.value.q2Interp,
        uInterp := r.value.uInterp, vInterp := r.value.vInterp, swInterp := r.value.swInterp,
        lwInterp := r.value.lwInterp, precipInterp := r.value.precipInterp,
        psfcInterp := r.value.psfcInterp)
    ensures r.Success? ==> InterpLengths(r.value, st.numberInputs.value)
    ensures var n := st.numberInputs.value;
      r.Success? <==>
        && InterpConfigured(env, T2, n) && InterpConfigured(env, Q2, n)
        && InterpConfigured(env, U, n) && InterpConfigured(env, V, n)
        && InterpConfigured(env, Sw, n) && InterpConfigured(env, Lw, n)
        && InterpConfigured(env, Precip, n) && InterpConfigured(env, Psfc, n)
    ensures r.Success? ==>
      && r.value.t2Interp == InterpList(env, T2) && r.value.q2Interp == InterpList(env, Q2)
      && r.value.uInterp == InterpList(env, U) && r.value.vInterp == InterpList(env, V)
      && r.value.swInterp == InterpList(env, Sw) && r.value.lwInterp == InterpList(env, Lw)
      && r.value.precipInterp == InterpList(env, Precip) && r.value.psfcInterp == InterpList(env, Psfc)
  {
    var n := st.numberInputs.value;
    var t2 :- ReadInterp(env, T2, n);
    var q2 :- ReadInterp(env, Q2, n);
    var u :- ReadInterp(env, U, n);
    var v :- ReadInterp(env, V, n);
    var sw :- ReadInterp(env, Sw, n);
    var lw :- ReadInterp(env, Lw, n);
    var precip :- ReadInterp(env, Precip, n);
    var psfc :- ReadInterp(env, Psfc, n);
    Success(st.(t2Interp := Some(t2), q2Interp := Some(q2), uInterp := Some(u), vInterp := Some(v),
      swInterp := Some(sw), lwInterp := Some(lw), precipInterp := Some(precip), psfcInterp := Some(psfc)))
  }

  /** Every interpolation list is set and has n entries. */
  predicate InterpLengths(st: ConfigState, n: int) {
    && st.t2Interp.Some? && |st.t2Interp.value| == n
    && st.q2Interp.Some? && |st.q2Interp.value| == n
    && st.uInterp.Some? && |st.uInterp.value| == n
    && st.vInterp.Some? && |st.vInterp.value| == n
    && st.swInterp.Some? && |st.swInterp.value| == n
    && st.lwInterp.Some? && |st.lwInterp.value| == n
    && st.precipInterp.Some? && |st.precipInterp.value| == n
    && st.psfcInterp.Some? && |st.psfcInterp.value| == n
  }

  // ---------------------------------------------------------------------
  // What a completed pass establishes
  // ---------------------------------------------------------------------

  /** The inputs and outputs blocks (core/configMod.py:69-142) hold. */
  predicate InputsValid(env: Env, st: ConfigState) {
    && st.inputForcings.Some? && |st.inputForcings.value| > 0
    && AllWithin(st.inputForcings.value, 0, 10)
    && st.numberInputs == Some(|st.inputForcings.value|)
    && st.inputForceDirs.Some? && |st.inputForceDirs.value| == |st.inputForcings.value|
    && (forall i :: 0 <= i < |st.inputForceDirs.value| ==>
          IsStripped(st.inputForceDirs.value[i]) && env.isDir(st.inputForceDirs.value[i]))
    && st.outputFreq.Some? && st.outputFreq.value > 0
    && st.outputDir.Some? && env.isDir(st.outputDir.value)
    && (st.retroFlag == Some(0) || st.retroFlag == Some(1))
  }

  /** The mode flags as the source selects them: RetroFlag 1 is retrospective;
      RetroFlag 0 is reforecast for LookBack -9999 and realtime for a positive
      LookBack, and no other LookBack is accepted. */
  predicate ModeSelected(st: ConfigState) {
    && st.realtimeFlag.Some? && st.refcstFlag.Some?
    && (IsRetro(st) ==> !IsRealtime(st) && !IsReforecast(st))
    && (st.retroFlag == Some(0) ==>
          && st.lookBack.Some?
          && (st.lookBack.value == SENTINEL || st.lookBack.value > 0)
          && (IsReforecast(st) <==> st.lookBack.value == SENTINEL)
          && (IsRealtime(st) <==> st.lookBack.value > 0))
  }

  /** Retrospective: a real window, cut into whole output periods. */
  predicate RetroWindow(st: ConfigState)
    requires st.outputFreq.Some? && st.outputFreq.value > 0
  {
    IsRetro(st) ==>
      && IsDate(st.bDateProc) && IsDate(st.eDateProc)
      && Before(st.bDateProc.when, st.eDateProc.when)
      && st.numOutputSteps == Some(SpanMinutes(st.bDateProc.when, st.eDateProc.when) / st.outputFreq.value)
  }

  /** Both forecast modes: a LookBack and a forecast frequency in (0, 1440]. */
  predicate ForecastSettings(st: ConfigState) {
    st.retroFlag == Some(0) ==>
      && st.lookBack.Some?
      && st.fcstFreq.Some? && 0 < st.fcstFreq.value <= 1440
  }

  /** Both forecast modes: the per-input horizons and offsets, and the cycle cut
      into whole output periods. */
  predicate ForecastCycle(st: ConfigState)
    requires st.outputFreq.Some?
  {
    st.retroFlag == Some(0) ==>
      && st.fcstInputHorizons.Some? && Some(|st.fcstInputHorizons.value|) == st.numberInputs
      && AllAtLeast(st.fcstInputHorizons.value, 1)
      && st.fcstInputOffsets.Some? && Some(|st.fcstInputOffsets.value|) == st.numberInputs
      && AllAtLeast(st.fcstInputOffsets.value, 0)
      && |st.fcstInputHorizons.value| > 0
      && st.cycleLengthMinutes == Some(Max(st.fcstInputHorizons.value))
      && st.numOutputSteps.Some?
      && st.numOutputSteps.value * st.outputFreq.value == st.cycleLengthMinutes.value
  }

  /** Reforecast: a real window holding a whole number of forecast cycles. */
  predicate ReforecastWindow(st: ConfigState) {
    IsReforecast(st) ==>
      && st.lookBack == Some(SENTINEL)
      && IsDate(st.bDateProc) && IsDate(st.eDateProc)
      && Before(st.bDateProc.when, st.eDateProc.when)
      && st.fcstFreq.Some? && st.nFcsts.Some?
      && st.nFcsts.value * st.fcstFreq.value == SpanMinutes(st.bDateProc.when, st.eDateProc.when)
  }

  /** Realtime: a positive lookback, a shift of at least zero, and the window the
      lookback resolver computes. */
  predicate RealtimeWindow(env: Env, st: ConfigState) {
    IsRealtime(st) ==>
      && st.lookBack.Some? && st.lookBack.value > 0
      && st.fcstShift.Some? && st.fcstShift.value >= 0
      && st.fcstFreq.Some?
      && st.bDateProc == At(LookbackWindow(env, st).0)
      && st.eDateProc == At(LookbackWindow(env, st).1)
  }

  /** The mode and window blocks (core/configMod.py:144-366) hold. */
  predicate WindowValid(env: Env, st: ConfigState)
    requires st.outputFreq.Some? && st.outputFreq.value > 0
  {
    ModeValid(env, st) && ForecastCycle(st)
  }

  /** The mode blocks (core/configMod.py:144-314) hold. */
  predicate ModeValid(env: Env, st: ConfigState)
    requires st.outputFreq.Some? && st.outputFreq.value > 0
  {
    && ModeSelected(st) && RetroWindow(st) && ForecastSettings(st)
    && ReforecastWindow(st) && RealtimeWindow(env, st)
  }

  /** The geospatial and regridding blocks (core/configMod.py:368-391) hold. */
  predicate GridValid(env: Env, st: ConfigState) {
    && st.geogrid.Some? && env.isFile(st.geogrid.value)
    && st.regridOpt.Some? && Some(|st.regridOpt.value|) == st.numberInputs
    && AllWithin(st.regridOpt.value, 1, 3)
  }

  /** Everything a completed `read_config` establishes. */
  predicate Resolved(env: Env, st: ConfigState) {
    && InputsValid(env, st) && WindowValid(env, st) && GridValid(env, st)
    && InterpLengths(st, st.numberInputs.value)
  }

  // ---------------------------------------------------------------------
  // The whole pass
  // ---------------------------------------------------------------------

  /** The inputs and outputs blocks (lines 69-142). */
  function ResolveInputs(env: Env, st: ConfigState): (r: Result<ConfigState, ConfigError>)
    ensures r.Success? ==>
      r.value == st.(inputForcings := r.value.inputForcings, numberInputs := r.value.numberInputs,
        inputForceDirs := r.value.inputForceDirs, outputFreq := r.value.outputFreq,
        outputDir := r.value.outputDir, retroFlag := r.value.retroFlag)
    ensures r.Success? ==> InputsValid(env, r.value)
  {
    var s1 :- ReadInputForcings(env, st);
    var s2 :- ReadInputDirectories(env, s1);
    var s3 :- ReadOutputFrequency(env, s2);
    var s4 :- ReadOutputDir(env, s3);
    ReadRetroFlag(env, s4)
  }

  /** The mode blocks (lines 144-314). */
  function ResolveMode(env: Env, st: ConfigState): (r: Result<ConfigState, ConfigError>)
    requires InputsValid(env, st)
    ensures r.Success? ==>
      r.value == st.(realtimeFlag := r.value.realtimeFlag, refcstFlag := r.value.refcstFlag,
        bDateProc := r.value.bDateProc, eDateProc := r.value.eDateProc,
        numOutputSteps := r.value.numOutputSteps, lookBack := r.value.lookBack,
        fcstFreq := r.value.fcstFreq, fcstShift := r.value.fcstShift, nFcsts := r.value.nFcsts)
    ensures r.Success? ==> InputsValid(env, r.value) && ModeValid(env, r.value)
    ensures r.Success? && !IsReforecast(r.value) ==> r.value.nFcsts == st.nFcsts
    ensures r.Success? && IsRetro(st) ==>
      && r.value.lookBack == st.lookBack && r.value.fcstFreq == st.fcstFreq
      && r.value.fcstShift == st.fcstShift
  {
    var s1 :- RetrospectiveWindow(env, st);
    var s2 :- ForecastMode(env, s1);
    var s3 :- ReadForecastFrequency(env, s2);
    var s4 :- ReadForecastShift(env, s3);
    CountReforecasts(env, s4)
  }

  /** The horizon, offset and cycle blocks (lines 316-366). */
  function ResolveCycle(env: Env, st: ConfigState): (r: Result<ConfigState, ConfigError>)
    requires InputsValid(env, st)
    ensures st.retroFlag != Some(0) ==> r == Success(st)
    ensures r.Success? ==>
      r.value == st.(fcstInputHorizons := r.value.fcstInputHorizons,
        fcstInputOffsets := r.value.fcstInputOffsets,
        cycleLengthMinutes := r.value.cycleLengthMinutes, numOutputSteps := r.value.numOutputSteps)
    ensures r.Success? ==> ForecastCycle(r.value)
  {
    var s1 :- ReadHorizons(env, st);
    var s2 :- ReadOffsets(env, s1);
    CycleLength(env, s2)
  }

  /** The mode and window blocks (lines 144-366). */
  function ResolveWindow(env: Env, st: ConfigState): (r: Result<ConfigState, ConfigError>)
    requires InputsValid(env, st)
    ensures r.Success? ==>
      r.value == st.(realtimeFlag := r.value.realtimeFlag, refcstFlag := r.value.refcstFlag,
        bDateProc := r.value.bDateProc, eDateProc := r.value.eDateProc,
        numOutputSteps := r.value.numOutputSteps, lookBack := r.value.lookBack,
        fcstFreq := r.value.fcstFreq, fcstShift := r.value.fcstShift, nFcsts := r.value.nFcsts,
        fcstInputHorizons := r.value.fcstInputHorizons, fcstInputOffsets := r.value.fcstInputOffsets,
        cycleLengthMinutes := r.value.cycleLengthMinutes)
    ensures r.Success? ==> InputsValid(env, r.value) && WindowValid(env, r.value)
  {
    var s1 :- ResolveMode(env, st);
    ResolveCycle(env, s1)
  }

  /** Everything up to and including the regridding block (lines 69-391). */
  function ResolveUpToRegridding(env: Env, st: ConfigState): (r: Result<ConfigState, ConfigError>)
    ensures r.Success? ==>
      && r.value.configPath == st.configPath && r.value.programInit == st.programInit
      && InputsValid(env, r.value) && WindowValid(env, r.value) && GridValid(env, r.value)
  {
    var s1 :- ResolveInputs(env, st);
    var s2 :- ResolveWindow(env, s1);
    var s3 :- ReadGeogrid(env, s2);
    ReadRegridding(env, s3)
  }

  /** The whole of read_config (lines 57-495). */
  function Resolve(env: Env, st: ConfigState): (r: Result<ConfigState, ConfigError>)
    ensures r.Success? ==> r.value.configPath == st.configPath && r.value.programInit == st.programInit
    ensures r.Success? ==>
      && InputsValid(env, r.value) && GridValid(env, r.value)
      && InterpLengths(r.value, r.value.numberInputs.value)
  {
    var s1 :- ResolveUpToRegridding(env, st);
    ReadInterpolation(env, ConfirmLookback(env, s1))
  }

  lemma DivExact(a: int, b: int)
    requires b > 0 && a % b == 0
    ensures (a / b) * b == a
  {
  }
}
