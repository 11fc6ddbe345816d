/**
  `ConfigOptions` (core/configMod.py): the object whose fields `read_config`
  fills in place, block by block. Each block is a method proved against the
  stage of `ConfigSpec` it implements; `ReadConfig` runs them in source order and
  is proved against `ConfigSpec.Resolve`. A method that stops with an error
  stands for `errMod.err_out_screen`, which ends the process: what the fields
  hold then is not described.
 */
module ConfigMod {
  import opened Wrappers
  import opened PyText
  import opened Calendar
  import opened Lists
  import opened ConfigMessages
  import opened ConfigTypes
  import opened ConfigSpec

  /** The `for` loops that test every element against both bounds. */
  method CheckWithin(xs: seq<int>, lo: int, hi: int) returns (ok: bool)
    ensures ok <==> AllWithin(xs, lo, hi)
  {
    for i := 0 to |xs|
      invariant forall j :: 0 <= j < i ==> lo <= xs[j] <= hi
    {
      if xs[i] < lo || xs[i] > hi {
        return false;
      }
    }
    return true;
  }

  /** The `for` loops that test every element against a lower bound. */
  method CheckAtLeast(xs: seq<int>, lo: int) returns (ok: bool)
    ensures ok <==> AllAtLeast(xs, lo)
  {
    for i := 0 to |xs|
      invariant forall j :: 0 <= j < i ==> lo <= xs[j]
    {
      if xs[i] < lo {
        return false;
      }
    }
    return true;
  }

  /** The attributes set from the [Input] section. */
  datatype InputOptions = InputOptions(
    inputForcings: Option<seq<int>>,
    inputForceDirs: Option<seq<string>>,
    numberInputs: Option<int>)

  /** The attributes set from the [Output] section. */
  datatype OutputOptions = OutputOptions(
    outputFreq: Option<int>,
    outputDir: Option<string>,
    numOutputSteps: Option<int>)

  /** The attributes set from the processing mode and window, from [Retrospective] and [Forecast]. */
  datatype WindowOptions = WindowOptions(
    retroFlag: Option<int>,
    realtimeFlag: Option<bool>,
    refcstFlag: Option<bool>,
    bDateProc: DateField,
    eDateProc: DateField)

  /** The attributes set from the rest of the [Forecast] section. */
  datatype ForecastOptions = ForecastOptions(
    cycleLengthMinutes: Option<int>,
    lookBack: Option<int>,
    fcstFreq: Option<int>,
    nFcsts: Option<int>,
    fcstShift: Option<int>,
    fcstInputHorizons: Option<seq<int>>,
    fcstInputOffsets: Option<seq<int>>)

  /** The attributes set from the [Geospatial] and [Regridding] sections. */
  datatype GridOptions = GridOptions(
    geogrid: Option<string>,
    regridOpt: Option<seq<int>>)

  /** The attributes set from the [Interpolation] section. */
  datatype InterpOptions = InterpOptions(
    t2Interp: Option<seq<int>>,
    q2Interp: Option<seq<int>>,
    uInterp: Option<seq<int>>,
    vInterp: Option<seq<int>>,
    swInterp: Option<seq<int>>,
    lwInterp: Option<seq<int>>,
    precipInterp: Option<seq<int>>,
    psfcInterp: Option<seq<int>>)

  class ConfigOptions {
    var configPath: string
    var programInit: DateTime
    var input: InputOptions
    var output: OutputOptions
    var window: WindowOptions
    var forecast: ForecastOptions
    var grid: GridOptions
    var interp: InterpOptions

    /** The attributes as one flat value. */
    function State(): ConfigState
      reads this
    {
      ConfigState(configPath, programInit,
        input.inputForcings, input.inputForceDirs, input.numberInputs,
        output.outputFreq, output.outputDir, output.numOutputSteps,
        window.retroFlag, window.realtimeFlag, window.refcstFlag, window.bDateProc, window.eDateProc,
        forecast.cycleLengthMinutes, forecast.lookBack, forecast.fcstFreq, forecast.nFcsts, forecast.fcstShift, forecast.fcstInputHorizons, forecast.fcstInputOffsets,
        grid.geogrid, grid.regridOpt,
        interp.t2Interp, interp.q2Interp, interp.uInterp, interp.vInterp, interp.swInterp, interp.lwInterp, interp.precipInterp, interp.psfcInterp)
    }

    /** Every option unset; `programInit` stands for `datetime.utcnow()`. */
    constructor(configPath: string, programInit: DateTime)
      ensures State() == Initial(configPath, programInit)
    {
      this.configPath := configPath;
      this.programInit := programInit;
      input := InputOptions(None, None, None);
      output := OutputOptions(None, None, None);
      window := WindowOptions(None, None, None, Unset, Unset);
      forecast := ForecastOptions(None, None, None, None, None, None, None);
      grid := GridOptions(None, None);
      interp := InterpOptions(None, None, None, None, None, None, None, None);
    }

    method ReadInputForcings(env: Env) returns (o: Outcome<ConfigError>)
      modifies this
      ensures o == OutcomeOf(ConfigSpec.ReadInputForcings(env, old(State())))
      ensures o.Pass? ==> State() == ConfigSpec.ReadInputForcings(env, old(State())).value
    {
      var read := ReadList(env, "Input", "InputForcings", InputForcingsMissing, InputForcingsImproper);
      if read.Failure? {
        return Fail(read.error);
      }
      input := input.(inputForcings := Some(read.value));
      if |read.value| == 0 {
        return Fail(ConfigError(RangeError, InputForcingsEmpty));
      }
      input := input.(numberInputs := Some(|read.value|));
      var ok := CheckWithin(read.value, 0, 10);
      if !ok {
        return Fail(ConfigError(RangeError, InputForcingsRange));
      }
      return Pass;
    }

    /** The entries are split on commas and then stripped in place, one at a
        time, each tested for existence as soon as it is stripped. */
    method ReadInputDirectories(env: Env) returns (o: Outcome<ConfigError>)
      requires input.numberInputs.Some?
      modifies this
      ensures o == OutcomeOf(ConfigSpec.ReadInputDirectories(env, old(State())))
      ensures o.Pass? ==> State() == ConfigSpec.ReadInputDirectories(env, old(State())).value
    {
      var text := Lookup(env, "Input", "InputForcingDirectories");
      if text.None? {
        return Fail(ConfigError(Unhandled, ForceDirsNoOption));
      }
      var parts := Split(text.value, ',');
      input := input.(inputForceDirs := Some(parts));
      if |parts| != input.numberInputs.value {
        return Fail(ConfigError(ArrayLengthMismatch, ForceDirsCount));
      }
      for i := 0 to |parts|
        invariant input.inputForceDirs.Some? && |input.inputForceDirs.value| == |parts|
        invariant forall j :: 0 <= j < i ==>
          input.inputForceDirs.value[j] == Strip(parts[j]) && env.isDir(input.inputForceDirs.value[j])
        invariant forall j :: i <= j < |parts| ==> input.inputForceDirs.value[j] == parts[j]
        invariant State() == old(State()).(inputForceDirs := input.inputForceDirs)
      {
        var dirs := input.inputForceDirs.value;
        input := input.(inputForceDirs := Some(dirs[i := Strip(dirs[i])]));
        if !env.isDir(input.inputForceDirs.value[i]) {
          FirstMissingAt(env.isDir, StripAll(parts), i);
          return Fail(ConfigError(ResourceNotFound, ForceDirMissing(input.inputForceDirs.value[i])));
        }
      }
      assert input.inputForceDirs.value == StripAll(parts);
      return Pass;
    }

    method ReadOutputFrequency(env: Env) returns (o: Outcome<ConfigError>)
      modifies this
      ensures o == OutcomeOf(ConfigSpec.ReadOutputFrequency(env, old(State())))
      ensures o.Pass? ==> State() == ConfigSpec.ReadOutputFrequency(env, old(State())).value
    {
      var read := ReadInt(env, "Output", "OutputFrequency", OutputFreqMissing, OutputFreqImproper);
      if read.Failure? {
        return Fail(read.error);
      }
      output := output.(outputFreq := Some(read.value));
      if read.value <= 0 {
        return Fail(ConfigError(RangeError, OutputFreqRange));
      }
      return Pass;
    }

    method ReadOutputDir(env: Env) returns (o: Outcome<ConfigError>)
      modifies this
      ensures o == OutcomeOf(ConfigSpec.ReadOutputDir(env, old(State())))
      ensures o.Pass? ==> State() == ConfigSpec.ReadOutputDir(env, old(State())).value
    {
      var dir := Lookup(env, "Output", "OutDir");
      if dir.None? {
        return Fail(ConfigError(MissingKey, OutDirMissing));
      }
      output := output.(outputDir := dir);
      if !env.isDir(dir.value) {
        return Fail(ConfigError(ResourceNotFound, OutDirNotFound(dir.value)));
      }
      return Pass;
    }

    method ReadRetroFlag(env: Env) returns (o: Outcome<ConfigError>)
      modifies this
      ensures o == OutcomeOf(ConfigSpec.ReadRetroFlag(env, old(State())))
      ensures o.Pass? ==> State() == ConfigSpec.ReadRetroFlag(env, old(State())).value
    {
      var read := ReadInt(env, "Retrospective", "RetroFlag", RetroFlagMissing, RetroFlagImproper);
      if read.Failure? {
        return Fail(read.error);
      }
      window := window.(retroFlag := Some(read.value));
      if read.value < 0 || read.value > 1 {
        return Fail(ConfigError(RangeError, RetroFlagRange));
      }
      return Pass;
    }

    method RetrospectiveWindow(env: Env) returns (o: Outcome<ConfigError>)
      requires output.outputFreq.Some? && output.outputFreq.value > 0
      modifies this
      ensures o == OutcomeOf(ConfigSpec.RetrospectiveWindow(env, old(State())))
      ensures o.Pass? ==> State() == ConfigSpec.RetrospectiveWindow(env, old(State())).value
    {
      if window.retroFlag != Some(1) {
        return Pass;
      }
      window := window.(realtimeFlag := Some(false));
      window := window.(refcstFlag := Some(false));
      var b := ReadDate(env, "Retrospective", "BDateProc", BDateMissing, BDateLength, BDateImproper);
      if b.Failure? {
        return Fail(b.error);
      }
      window := window.(bDateProc := b.value);
      var e := ReadDate(env, "Retrospective", "EDateProc", EDateMissing, EDateLength, EDateImproper);
      if e.Failure? {
        return Fail(e.error);
      }
      window := window.(eDateProc := e.value);
      if window.eDateProc.At? {
        if window.bDateProc.Sentinel? {
          return Fail(ConfigError(CrossFieldInconsistency, RetroBeginSentinel));
        }
        if !Before(window.bDateProc.when, window.eDateProc.when) {
          return Fail(ConfigError(CrossFieldInconsistency, RetroOrder));
        }
      }
      if window.eDateProc.Sentinel? && !window.bDateProc.Sentinel? {
        return Fail(ConfigError(CrossFieldInconsistency, RetroEndSentinel));
      }
      if window.eDateProc.Sentinel? {
        return Fail(ConfigError(Unhandled, NoDaysAttribute));
      }
      output := output.(numOutputSteps := Some(SpanMinutes(window.bDateProc.when, window.eDateProc.when) / output.outputFreq.value));
      return Pass;
    }

    method ForecastMode(env: Env) returns (o: Outcome<ConfigError>)
      modifies this
      ensures o == OutcomeOf(ConfigSpec.ForecastMode(env, old(State())))
      ensures o.Pass? ==> State() == ConfigSpec.ForecastMode(env, old(State())).value
    {
      if window.retroFlag != Some(0) {
        return Pass;
      }
      var read := ReadInt(env, "Forecast", "LookBack", LookBackMissing, LookBackImproper);
      if read.Failure? {
        return Fail(read.error);
      }
      forecast := forecast.(lookBack := Some(read.value));
      if read.value <= 0 && read.value != SENTINEL {
        return Fail(ConfigError(RangeError, LookBackRange));
      }
      if read.value == SENTINEL {
        window := window.(realtimeFlag := Some(false));
        window := window.(refcstFlag := Some(true));
        var b := ReadDate(env, "Forecast", "RefcstBDateProc",
          RefcstBDateMissing, RefcstBDateLength, RefcstBDateImproper);
        if b.Failure? {
          return Fail(b.error);
        }
        if b.value.Sentinel? {
          return Fail(ConfigError(MissingKey, NoReforecastRange));
        }
        window := window.(bDateProc := b.value);
        var e := ReadDate(env, "Forecast", "RefcstEDateProc",
          RefcstEDateMissing, RefcstEDateLength, RefcstEDateImproper);
        if e.Failure? {
          return Fail(e.error);
        }
        if e.value.Sentinel? {
          return Fail(ConfigError(MissingKey, NoReforecastRange));
        }
        window := window.(eDateProc := e.value);
        if !Before(window.bDateProc.when, window.eDateProc.when) {
          return Fail(ConfigError(CrossFieldInconsistency, RefcstOrder));
        }
      } else {
        window := window.(realtimeFlag := Some(true));
        window := window.(refcstFlag := Some(false));
        window := window.(bDateProc := Sentinel);
        window := window.(eDateProc := Sentinel);
      }
      return Pass;
    }

    method ReadForecastFrequency(env: Env) returns (o: Outcome<ConfigError>)
      modifies this
      ensures o == OutcomeOf(ConfigSpec.ReadForecastFrequency(env, old(State())))
      ensures o.Pass? ==> State() == ConfigSpec.ReadForecastFrequency(env, old(State())).value
    {
      if window.retroFlag != Some(0) {
        return Pass;
      }
      var read := ReadInt(env, "Forecast", "ForecastFrequency", FcstFreqMissing, FcstFreqImproper);
      if read.Failure? {
        return Fail(read.error);
      }
      forecast := forecast.(fcstFreq := Some(read.value));
      if read.value <= 0 {
        return Fail(ConfigError(RangeError, FcstFreqPositive));
      }
      if read.value > 1440 {
        return Fail(ConfigError(RangeError, FcstFreqDaily));
      }
      return Pass;
    }

    /** `dateMod.calculate_lookback_window(self)`: in realtime mode the window
        the resolver computes from the start time, LookBack, ForecastShift and
        ForecastFrequency. */
    method ConfirmLookback(env: Env)
      requires window.realtimeFlag == Some(true) ==> forecast.lookBack.Some? && forecast.fcstShift.Some? && forecast.fcstFreq.Some?
      modifies this
      ensures State() == ConfigSpec.ConfirmLookback(env, old(State()))
    {
      if window.realtimeFlag == Some(true) {
        var w := LookbackWindow(env, State());
        window := window.(bDateProc := At(w.0));
        window := window.(eDateProc := At(w.1));
      }
    }

    method ReadForecastShift(env: Env) returns (o: Outcome<ConfigError>)
      requires window.retroFlag == Some(0) && window.realtimeFlag == Some(true) ==> forecast.lookBack.Some? && forecast.fcstFreq.Some?
      modifies this
      ensures o == OutcomeOf(ConfigSpec.ReadForecastShift(env, old(State())))
      ensures o.Pass? ==> State() == ConfigSpec.ReadForecastShift(env, old(State())).value
    {
      if !(window.retroFlag == Some(0) && window.realtimeFlag == Some(true)) {
        return Pass;
      }
      var read := ReadInt(env, "Forecast", "ForecastShift", FcstShiftMissing, FcstShiftImproper);
      if read.Failure? {
        return Fail(read.error);
      }
      forecast := forecast.(fcstShift := Some(read.value));
      if read.value < 0 {
        return Fail(ConfigError(RangeError, FcstShiftRange));
      }
      ConfirmLookback(env);
      return Pass;
    }

    method CountReforecasts(env: Env) returns (o: Outcome<ConfigError>)
      requires window.retroFlag == Some(0) && window.refcstFlag == Some(true) ==>
        IsDate(window.bDateProc) && IsDate(window.eDateProc) && forecast.fcstFreq.Some? && forecast.fcstFreq.value > 0
      modifies this
      ensures o == OutcomeOf(ConfigSpec.CountReforecasts(env, old(State())))
      ensures o.Pass? ==> State() == ConfigSpec.CountReforecasts(env, old(State())).value
    {
      if !(window.retroFlag == Some(0) && window.refcstFlag == Some(true)) {
        return Pass;
      }
      var span := SpanMinutes(window.bDateProc.when, window.eDateProc.when);
      if span % forecast.fcstFreq.value != 0 {
        return Fail(ConfigError(CrossFieldInconsistency, RefcstDivider));
      }
      forecast := forecast.(nFcsts := Some(span / forecast.fcstFreq.value));
      return Pass;
    }

    method ReadHorizons(env: Env) returns (o: Outcome<ConfigError>)
      requires input.numberInputs.Some?
      modifies this
      ensures o == OutcomeOf(ConfigSpec.ReadHorizons(env, old(State())))
      ensures o.Pass? ==> State() == ConfigSpec.ReadHorizons(env, old(State())).value
    {
      if window.retroFlag != Some(0) {
        return Pass;
      }
      var read := ReadList(env, "Forecast", "ForecastInputHorizons", HorizonsMissing, HorizonsImproper);
      if read.Failure? {
        return Fail(read.error);
      }
      forecast := forecast.(fcstInputHorizons := Some(read.value));
      if |read.value| != input.numberInputs.value {
        return Fail(ConfigError(ArrayLengthMismatch, HorizonsCount));
      }
      var ok := CheckAtLeast(read.value, 1);
      if !ok {
        return Fail(ConfigError(RangeError, HorizonsRange));
      }
      return Pass;
    }

    method ReadOffsets(env: Env) returns (o: Outcome<ConfigError>)
      requires input.numberInputs.Some?
      modifies this
      ensures o == OutcomeOf(ConfigSpec.ReadOffsets(env, old(State())))
      ensures o.Pass? ==> State() == ConfigSpec.ReadOffsets(env, old(State())).value
    {
      if window.retroFlag != Some(0) {
        return Pass;
      }
      var read := ReadList(env, "Forecast", "ForecastInputOffsets", OffsetsMissing, OffsetsImproper);
      if read.Failure? {
        return Fail(read.error);
      }
      forecast := forecast.(fcstInputOffsets := Some(read.value));
      if |read.value| != input.numberInputs.value {
        return Fail(ConfigError(ArrayLengthMismatch, OffsetsCount));
      }
      var ok := CheckAtLeast(read.value, 0);
      if !ok {
        return Fail(ConfigError(RangeError, OffsetsRange));
      }
      return Pass;
    }

    method CycleLength(env: Env) returns (o: Outcome<ConfigError>)
      requires window.retroFlag == Some(0) ==> forecast.fcstInputHorizons.Some? && |forecast.fcstInputHorizons.value| > 0
      requires output.outputFreq.Some? && output.outputFreq.value > 0
      modifies this
      ensures o == OutcomeOf(ConfigSpec.CycleLength(env, old(State())))
      ensures o.Pass? ==> State() == ConfigSpec.CycleLength(env, old(State())).value
    {
      if window.retroFlag != Some(0) {
        return Pass;
      }
      forecast := forecast.(cycleLengthMinutes := Some(Max(forecast.fcstInputHorizons.value)));
      if forecast.cycleLengthMinutes.value % output.outputFreq.value != 0 {
        return Fail(ConfigError(CrossFieldInconsistency, CycleDivider));
      }
      output := output.(numOutputSteps := Some(forecast.cycleLengthMinutes.value / output.outputFreq.value));
      return Pass;
    }

    method ReadGeogrid(env: Env) returns (o: Outcome<ConfigError>)
      modifies this
      ensures o == OutcomeOf(ConfigSpec.ReadGeogrid(env, old(State())))
      ensures o.Pass? ==> State() == ConfigSpec.ReadGeogrid(env, old(State())).value
    {
      var path := Lookup(env, "Geospatial", "GeogridIn");
      if path.None? {
        return Fail(ConfigError(MissingKey, GeogridMissing));
      }
      grid := grid.(geogrid := path);
      if !env.isFile(path.value) {
        return Fail(ConfigError(ResourceNotFound, GeogridNotFound(path.value)));
      }
      return Pass;
    }

    method ReadRegridding(env: Env) returns (o: Outcome<ConfigError>)
      requires input.numberInputs.Some?
      modifies this
      ensures o == OutcomeOf(ConfigSpec.ReadRegridding(env, old(State())))
      ensures o.Pass? ==> State() == ConfigSpec.ReadRegridding(env, old(State())).value
    {
      var read := ReadList(env, "Regridding", "RegridOpt", RegridMissing, RegridImproper);
      if read.Failure? {
        return Fail(read.error);
      }
      grid := grid.(regridOpt := Some(read.value));
      if |read.value| != input.numberInputs.value {
        return Fail(ConfigError(ArrayLengthMismatch, RegridCount));
      }
      var ok := CheckWithin(read.value, 1, 3);
      if !ok {
        return Fail(ConfigError(RangeError, RegridRange));
      }
      return Pass;
    }

    method ReadInterpolation(env: Env) returns (o: Outcome<ConfigError>)
      requires input.numberInputs.Some?
      modifies this
      ensures o == OutcomeOf(ConfigSpec.ReadInterpolation(env, old(State())))
      ensures o.Pass? ==> State() == ConfigSpec.ReadInterpolation(env, old(State())).value
    {
      var n := input.numberInputs.value;
      var t2 := ReadInterp(env, T2, n);
      if t2.Failure? {
        return Fail(t2.error);
      }
      interp := interp.(t2Interp := Some(t2.value));
      var q2 := ReadInterp(env, Q2, n);
      if q2.Failure? {
        return Fail(q2.error);
      }
      interp := interp.(q2Interp := Some(q2.value));
      var u := ReadInterp(env, U, n);
      if u.Failure? {
        return Fail(u.error);
      }
      interp := interp.(uInterp := Some(u.value));
      var v := ReadInterp(env, V, n);
      if v.Failure? {
        return Fail(v.error);
      }
      interp := interp.(vInterp := Some(v.value));
      var sw := ReadInterp(env, Sw, n);
      if sw.Failure? {
        return Fail(sw.error);
      }
      interp := interp.(swInterp := Some(sw.value));
      var lw := ReadInterp(env, Lw, n);
      if lw.Failure? {
        return Fail(lw.error);
      }
      interp := interp.(lwInterp := Some(lw.value));
      var precip := ReadInterp(env, Precip, n);
      if precip.Failure? {
        return Fail(precip.error);
      }
      interp := interp.(precipInterp := Some(precip.value));
      var psfc := ReadInterp(env, Psfc, n);
      if psfc.Failure? {
        return Fail(psfc.error);
      }
      interp := interp.(psfcInterp := Some(psfc.value));
      return Pass;
    }

    /** Lines 69-142: the input and output blocks and the retrospective flag. */
    method ResolveInputs(env: Env) returns (o: Outcome<ConfigError>)
      modifies this
      ensures o == OutcomeOf(ConfigSpec.ResolveInputs(env, old(State())))
      ensures o.Pass? ==> State() == ConfigSpec.ResolveInputs(env, old(State())).value
    {
      o := ReadInputForcings(env);
      if o.Fail? { return; }
      o := ReadInputDirectories(env);
      if o.Fail? { return; }
      o := ReadOutputFrequency(env);
      if o.Fail? { return; }
      o := ReadOutputDir(env);
      if o.Fail? { return; }
      o := ReadRetroFlag(env);
    }

    /** Lines 144-314: the processing mode and its window. */
    method ResolveMode(env: Env) returns (o: Outcome<ConfigError>)
      requires InputsValid(env, State())
      modifies this
      ensures o == OutcomeOf(ConfigSpec.ResolveMode(env, old(State())))
      ensures o.Pass? ==> State() == ConfigSpec.ResolveMode(env, old(State())).value
    {
      o := RetrospectiveWindow(env);
      if o.Fail? { return; }
      o := ForecastMode(env);
      if o.Fail? { return; }
      o := ReadForecastFrequency(env);
      if o.Fail? { return; }
      o := ReadForecastShift(env);
      if o.Fail? { return; }
      o := CountReforecasts(env);
    }

    /** Lines 316-366: horizons, offsets and the cycle length. */
    method ResolveCycle(env: Env) returns (o: Outcome<ConfigError>)
      requires InputsValid(env, State())
      modifies this
      ensures o == OutcomeOf(ConfigSpec.ResolveCycle(env, old(State())))
      ensures o.Pass? ==> State() == ConfigSpec.ResolveCycle(env, old(State())).value
    {
      o := ReadHorizons(env);
      if o.Fail? { return; }
      o := ReadOffsets(env);
      if o.Fail? { return; }
      o := CycleLength(env);
    }

    /** Lines 144-366. */
    method ResolveWindow(env: Env) returns (o: Outcome<ConfigError>)
      requires InputsValid(env, State())
      modifies this
      ensures o == OutcomeOf(ConfigSpec.ResolveWindow(env, old(State())))
      ensures o.Pass? ==> State() == ConfigSpec.ResolveWindow(env, old(State())).value
    {
      o := ResolveMode(env);
      if o.Fail? { return; }
      o := ResolveCycle(env);
    }

    /** Lines 69-391. */
    method ResolveUpToRegridding(env: Env) returns (o: Outcome<ConfigError>)
      modifies this
      ensures o == OutcomeOf(ConfigSpec.ResolveUpToRegridding(env, old(State())))
      ensures o.Pass? ==> State() == ConfigSpec.ResolveUpToRegridding(env, old(State())).value
    {
      o := ResolveInputs(env);
      if o.Fail? { return; }
      o := ResolveWindow(env);
      if o.Fail? { return; }
      o := ReadGeogrid(env);
      if o.Fail? { return; }
      o := ReadRegridding(env);
    }

    /** `read_config`: every block in source order, stopping at the first error. */
    method ReadConfig(env: Env) returns (o: Outcome<ConfigError>)
      modifies this
      ensures o == OutcomeOf(Resolve(env, old(State())))
      ensures o.Pass? ==> State() == Resolve(env, old(State())).value
    {
      o := ResolveUpToRegridding(env);
      if o.Fail? { return; }
      ConfirmLookback(env);
      o := ReadInterpolation(env);
    }
  }
}
