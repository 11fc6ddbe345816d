/**
  The values `ConfigOptions.read_config` works on: the parsed configuration file,
  what it consults besides the file, the fields of a `ConfigOptions` object, and
  the errors that end a pass.
 */
module ConfigTypes {
  import opened Wrappers
  import opened Calendar
  import opened ConfigMessages

  /** A parsed configuration file: the value of key k of section s is at (s, k). */
  type Config = map<(string, string), string>

  /**
    Everything `read_config` consults besides the object itself: the parsed file,
    `os.path.isdir`, `os.path.isfile`, and the realtime lookback-window resolver,
    taken as a function of the program start time, LookBack, ForecastShift and
    ForecastFrequency that returns the processing window's begin and end.
   */
  datatype Env = Env(
    config: Config,
    isDir: string -> bool,
    isFile: string -> bool,
    lookback: (DateTime, int, int, int) -> (DateTime, DateTime))

  /** `b_date_proc` / `e_date_proc`: `None`, the integer -9999, or a datetime. */
  datatype DateField = Unset | Sentinel | At(when: DateTime)

  /** The error taxonomy of the configuration reader, plus Unhandled for a Python
      exception that no `except` clause catches. */
  datatype ErrorKind =
    | MissingKey
    | ParseError
    | RangeError
    | ArrayLengthMismatch
    | CrossFieldInconsistency
    | ResourceNotFound
    | Unhandled

  /** A fatal error: its kind and the message printed before the process exits. */
  datatype ConfigError = ConfigError(kind: ErrorKind, message: Message)

  /** The value that stands for "not specified" in dates and LookBack. */
  const SENTINEL: int := -9999

  /** The fields of a `ConfigOptions` object that `read_config` reads or writes;
      `None` stands for Python's `None`. */
  datatype ConfigState = ConfigState(
    configPath: string,
    programInit: DateTime,
    inputForcings: Option<seq<int>>,
    inputForceDirs: Option<seq<string>>,
    numberInputs: Option<int>,
    outputFreq: Option<int>,
    outputDir: Option<string>,
    numOutputSteps: Option<int>,
    retroFlag: Option<int>,
    realtimeFlag: Option<bool>,
    refcstFlag: Option<bool>,
    bDateProc: DateField,
    eDateProc: DateField,
    cycleLengthMinutes: Option<int>,
    lookBack: Option<int>,
    fcstFreq: Option<int>,
    nFcsts: Option<int>,
    fcstShift: Option<int>,
    fcstInputHorizons: Option<seq<int>>,
    fcstInputOffsets: Option<seq<int>>,
    geogrid: Option<string>,
    regridOpt: Option<seq<int>>,
    t2Interp: Option<seq<int>>,
    q2Interp: Option<seq<int>>,
    uInterp: Option<seq<int>>,
    vInterp: Option<seq<int>>,
    swInterp: Option<seq<int>>,
    lwInterp: Option<seq<int>>,
    precipInterp: Option<seq<int>>,
    psfcInterp: Option<seq<int>>)

  /** A freshly constructed object: every field unset. */
  function Initial(configPath: string, programInit: DateTime): ConfigState {
    ConfigState(configPath, programInit, None, None, None, None, None, None, None, None, None,
      Unset, Unset, None, None, None, None, None, None, None, None, None,
      None, None, None, None, None, None, None, None)
  }

  /** Python's `retro_flag == 1`. */
  predicate IsRetro(st: ConfigState) {
    st.retroFlag == Some(1)
  }

  predicate IsRealtime(st: ConfigState) {
    st.realtimeFlag == Some(true)
  }

  predicate IsReforecast(st: ConfigState) {
    st.refcstFlag == Some(true)
  }

  /** A date field holding a real date. */
  predicate IsDate(f: DateField) {
    f.At? && Valid(f.when)
  }
}
