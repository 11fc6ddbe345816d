/**
  The messages `ConfigOptions.read_config` prints through the error reporter
  before the process exits. Errors carry a `Message`; `Text` spells out each one
  as the source does, including the places where adjacent literals are joined
  without a space.
 */
module ConfigMessages {

  /** The eight temporal-interpolation variables, in the order they are read. */
  datatype InterpVar = T2 | Q2 | U | V | Sw | Lw | Precip | Psfc

  /** The configuration key of each interpolation variable. */
  function InterpKeyName(v: InterpVar): string {
    match v
    case T2 => "2mTempTimeInterp"
    case Q2 => "2mQTimeInterp"
    case U => "10mUTimeInterp"
    case V => "10mVTimeInterp"
    case Sw => "swTimeInterp"
    case Lw => "lwTimeInterp"
    case Precip => "precipTimeInterp"
    case Psfc => "psfcTimeInterp"
  }

  /** The name the length-mismatch message uses: the key, except `2mQInterp`. */
  function InterpCountName(v: InterpVar): string {
    if v == Q2 then "2mQInterp" else InterpKeyName(v)
  }

  datatype Message =
    | InputForcingsMissing
    | InputForcingsImproper
    | InputForcingsEmpty
    | InputForcingsRange
    | ForceDirsNoOption
    | ForceDirsCount
    | ForceDirMissing(dir: string)
    | OutputFreqMissing
    | OutputFreqImproper
    | OutputFreqRange
    | OutDirMissing
    | OutDirNotFound(dir: string)
    | RetroFlagMissing
    | RetroFlagImproper
    | RetroFlagRange
    | BDateMissing
    | BDateLength
    | BDateImproper
    | EDateMissing
    | EDateLength
    | EDateImproper
    | RetroBeginSentinel
    | RetroOrder
    | RetroEndSentinel
    | NoDaysAttribute
    | LookBackMissing
    | LookBackImproper
    | LookBackRange
    | NoReforecastRange
    | RefcstBDateMissing
    | RefcstBDateLength
    | RefcstBDateImproper
    | RefcstEDateMissing
    | RefcstEDateLength
    | RefcstEDateImproper
    | RefcstOrder
    | FcstFreqMissing
    | FcstFreqImproper
    | FcstFreqPositive
    | FcstFreqDaily
    | FcstShiftMissing
    | FcstShiftImproper
    | FcstShiftRange
    | RefcstDivider
    | HorizonsMissing
    | HorizonsImproper
    | HorizonsCount
    | HorizonsRange
    | OffsetsMissing
    | OffsetsImproper
    | OffsetsCount
    | OffsetsRange
    | CycleDivider
    | GeogridMissing
    | GeogridNotFound(path: string)
    | RegridMissing
    | RegridImproper
    | RegridCount
    | RegridRange
    | InterpMissing(v: InterpVar)
    | InterpImproper(v: InterpVar)
    | InterpCount(v: InterpVar)

  /** The text printed for each message. */
  function Text(m: Message): string {
    match m
    case InputForcingsMissing => "Unable to locate InputForcings under Input section inconfiguration file."
    case InputForcingsImproper => "Improper InputForcings option specified in configuration file"
    case InputForcingsEmpty => "Please choose at least one InputForcings dataset to process"
    case InputForcingsRange => "Please specify InputForcings values between 1 and 10."
    case ForceDirsNoOption => "No option 'inputforcingdirectories' in section: 'Input'"
    case ForceDirsCount => "Number of InputForcingDirectories must match the number of InputForcings in the configuration file."
    case ForceDirMissing(dir) => "Unable to locate forcing directory: " + dir
    case OutputFreqMissing => "Unable to locate OutputFrequency in the configuration file."
    case OutputFreqImproper => "Improper OutputFrequency value specified in the configuration file."
    case OutputFreqRange => "Please specify an OutputFrequency that is greater than zero minutes."
    case OutDirMissing => "Unable to locate OutDir in the configuration file."
    case OutDirNotFound(dir) => "Specified output directory: " + dir + " not found."
    case RetroFlagMissing => "Unable to locate RetroFlag in theconfiguration file."
    case RetroFlagImproper => "Improper RetroFlag value "
    case RetroFlagRange => "Please choose a RetroFlag value of 0 or 1."
    case BDateMissing => "Unable to locate BDateProc under Logistics section inconfiguration file."
    case BDateLength => "Improper BDateProc length entered into the configuration file. Please check your entry."
    case BDateImproper => "Improper BDateProc value entered into the configuration file. Please check your entry."
    case EDateMissing => "Unable to locate EDateProc under Logistics section inconfiguration file."
    case EDateLength => "Improper EDateProc length entered into theconfiguration file. Please check your entry."
    case EDateImproper => "Improper EDateProc value entered into the configuration file. Please check your entry."
    case RetroBeginSentinel => "If choosing retrospective forecasting, dates must not be -9999"
    case RetroOrder => "Please choose an ending EDateProc that is greater than BDateProc."
    case RetroEndSentinel => "If choosing retrospective forcings, dates must not be -9999"
    case NoDaysAttribute => "'int' object has no attribute 'days'"
    case LookBackMissing => "Unable to locate LookBack in the configuration file. Please verify entries exist."
    case LookBackImproper => "Improper LookBack value entered into the configuration file. Please check your entry."
    case LookBackRange => "Please specify a positive LookBack or -9999 for realtime."
    case NoReforecastRange => "Please either specify a reforecast range, or change the configuration to process refrospective or realtime."
    case RefcstBDateMissing => "Unable to locate RefcstBDateProc under Logistics section inconfiguration file."
    case RefcstBDateLength => "Improper RefcstBDateProc length entered into the configuration file. Please check your entry."
    case RefcstBDateImproper => "Improper RefcstBDateProc value entered into the configuration file. Please check your entry."
    case RefcstEDateMissing => "Unable to locate RefcstEDateProc under Logistics section inconfiguration file."
    case RefcstEDateLength => "Improper RefcstEDateProc length entered into theconfiguration file. Please check your entry."
    case RefcstEDateImproper => "Improper RefcstEDateProc value entered into the configuration file. Please check your entry."
    case RefcstOrder => "Please choose an ending RefcstEDateProc that is greater than RefcstBDateProc."
    case FcstFreqMissing => "Unable to locate ForecastFrequency in the configuration file. Please verify entries exist."
    case FcstFreqImproper => "Improper ForecastFrequency value entered into the configuration file. Please check your entry."
    case FcstFreqPositive => "Please specify a ForecastFrequency in the configuration file greater than zero."
    case FcstFreqDaily => "Only forecast cycles of daily or sub-daily are supported at this time"
    case FcstShiftMissing => "Unable to locate ForecastShift in the configuration file. Please verify entries exist."
    case FcstShiftImproper => "Improper ForecastShift value entered into the configuration file. Please check your entry."
    case FcstShiftRange => "Please specify a ForecastShift in the configuration file greater than or equal to zero."
    case RefcstDivider => "Please choose an equal divider forecast frequency for your specified reforecast range."
    case HorizonsMissing => "Unable to locate ForecastInputHorizons under Forecast section inconfiguration file."
    case HorizonsImproper => "Improper ForecastInputHorizons option specified in configuration file"
    case HorizonsCount => "Please specify ForecastInputHorizon values for each corresponding input forcings for forecasts."
    case HorizonsRange => "Please specify ForecastInputHorizon values greater than zero."
    case OffsetsMissing => "Unable to locate ForecastInputOffsets under Forecast section in the configuration file."
    case OffsetsImproper => "Improper ForecastInputOffsets option specified in the configuration file."
    case OffsetsCount => "Please specify ForecastInputOffset values for each corresponding input forcings for forecasts."
    case OffsetsRange => "Please specify ForecastInputOffset values greater than or equal to zero."
    case CycleDivider => "Please specify an output time step that is an equal divider of the maximum of the forecast time horizons specified."
    case GeogridMissing => "Unable to locate GeogridIn in the configuration file."
    case GeogridNotFound(path) => "Unable to locate necessary geogrid file: " + path
    case RegridMissing => "Unable to locate RegridOpt under the Regridding section in the configuration file."
    case RegridImproper => "Improper RegridOpt options specified in the configuration file."
    case RegridCount => "Please specify RegridOpt values for each corresponding input forcings in the configuration file."
    case RegridRange => "Invalid RegridOpt chosen in the configuration file. Please choose a value of 1-3 for each corresponding input forcing."
    case InterpMissing(v) => "Unable to locate " + InterpKeyName(v) + " under the Interpolation section in the configuration file."
    case InterpImproper(v) => "Improper " + InterpKeyName(v) + " options specified in the configuration file."
    case InterpCount(v) => "Please specify " + InterpCountName(v) + " values for each corresponding input forcings in the configuration file."
  }
}
