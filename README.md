# Forcing-engine configuration reader and gr3 mesh reader

This project models two parts of a hydrologic forcing-data pipeline in Dafny.

**The configuration reader** is `ConfigOptions.read_config` in `core/configMod.py`.
It reads a sectioned configuration file: the input forcings and their directories,
the output cadence and directory, and the run mode. The mode is retrospective,
realtime or reforecast. The reader validates every option and derives the
processing window, the number of output steps, the forecast cycle length and the
number of reforecasts. It also reads the geogrid file, the regridding options and
the eight temporal-interpolation lists.

- `ConfigOptions` is a class whose fields the methods update in place, block by
  block, as the source does (module `ConfigMod`, `configoptions.dfy`).
- Each block also has a pure stage function over a flat `ConfigState` value
  (module `ConfigSpec`). Each method is proved equal to its stage, and `ReadConfig`
  is proved equal to `ConfigSpec.Resolve`.
- The properties of a completed pass are lemmas about those functions (module
  `ConfigProperties`): which modes exist, array lengths, divisibility of the
  windows, stability of the lookback window, the error paths, and each option
  read back as written, up to a whole configuration that gets through.
- The Python built-ins the reader relies on are modelled in `PyText`: `int()`,
  `str()`, `str.strip`, `str.split`, and `json.loads` on integer lists. `Calendar`
  models `datetime` and `strptime('%Y%m%d%H%M')`, and `Lists` models `max`.

**The mesh reader** is the `gr3` class and `parse_gr3_file` in `Util/gr3_2_esmf.py`
(module `Gr3Esmf`, `gr3.dfy`). A gr3 file is a name line, a line with the element
count and the node count, one line per node, then one line per element.

- `Gr3` is a class with array fields, filled in place by `ReadNodes` and
  `ReadElems`.
- Its meaning is the pure parser `ParseMesh` over the file's lines.
- `ParseMesh` is proved to read back what `Render` writes.
- The connectivity padding (`padded_elems`) is proved reversible.

Python exceptions that end the process appear as `Failure` values:
`errMod.err_out_screen` for the reader, a `ValueError` for the mesh reader.

## Model

| member | source | states |
|---|---|---|
| ConfigMod.ConfigOptions.constructor | core/configMod.py:14-55 | every option attribute starts unset; the configuration path and the program start time are the arguments |
| ConfigMod.ConfigOptions.ReadConfig | core/configMod.py:57-495 | the pass ends with the error of `ConfigSpec.Resolve`, or leaves the object in exactly the state `Resolve` computes |
| ConfigMod.ConfigOptions.ReadInputForcings | core/configMod.py:69-87 | the object changes exactly as the InputForcings stage says, and fails with the stage's error |
| ConfigMod.ConfigOptions.ReadInputDirectories | core/configMod.py:89-104 | stripping the entries in place, one at a time, and stopping at the first missing directory gives the stage's result and error |
| ConfigMod.ConfigOptions.ReadOutputFrequency | core/configMod.py:106-117 | the object changes exactly as the OutputFrequency stage says |
| ConfigMod.ConfigOptions.ReadOutputDir | core/configMod.py:119-130 | the object changes exactly as the OutDir stage says |
| ConfigMod.ConfigOptions.ReadRetroFlag | core/configMod.py:132-142 | the object changes exactly as the RetroFlag stage says |
| ConfigMod.ConfigOptions.RetrospectiveWindow | core/configMod.py:144-193 | the object changes exactly as the retrospective-window stage says |
| ConfigMod.ConfigOptions.ForecastMode | core/configMod.py:195-264 | the object changes exactly as the LookBack and reforecast-date stage says |
| ConfigMod.ConfigOptions.ReadForecastFrequency | core/configMod.py:266-285 | the object changes exactly as the ForecastFrequency stage says |
| ConfigMod.ConfigOptions.ReadForecastShift | core/configMod.py:287-305 | the object changes exactly as the ForecastShift and first-lookback stage says |
| ConfigMod.ConfigOptions.CountReforecasts | core/configMod.py:307-314 | the object changes exactly as the reforecast-count stage says |
| ConfigMod.ConfigOptions.ReadHorizons | core/configMod.py:316-334 | the object changes exactly as the ForecastInputHorizons stage says |
| ConfigMod.ConfigOptions.ReadOffsets | core/configMod.py:336-353 | the object changes exactly as the ForecastInputOffsets stage says |
| ConfigMod.ConfigOptions.CycleLength | core/configMod.py:355-366 | the object changes exactly as the cycle-length stage says |
| ConfigMod.ConfigOptions.ReadGeogrid | core/configMod.py:368-374 | the object changes exactly as the GeogridIn stage says |
| ConfigMod.ConfigOptions.ReadRegridding | core/configMod.py:376-391 | the object changes exactly as the RegridOpt stage says |
| ConfigMod.ConfigOptions.ConfirmLookback | core/configMod.py:393-395 | in realtime mode the window is the one the lookback resolver returns; otherwise nothing changes |
| ConfigMod.ConfigOptions.ReadInterpolation | core/configMod.py:407-495 | the object changes exactly as the interpolation stage says |
| ConfigMod.ConfigOptions.ResolveInputs | core/configMod.py:69-142 | running the five input and output blocks in order equals `ConfigSpec.ResolveInputs` |
| ConfigMod.ConfigOptions.ResolveMode | core/configMod.py:144-314 | running the mode blocks in order equals `ConfigSpec.ResolveMode` |
| ConfigMod.ConfigOptions.ResolveCycle | core/configMod.py:316-366 | running the horizon, offset and cycle blocks equals `ConfigSpec.ResolveCycle` |
| ConfigMod.ConfigOptions.ResolveWindow | core/configMod.py:144-366 | running the mode and cycle blocks equals `ConfigSpec.ResolveWindow` |
| ConfigMod.ConfigOptions.ResolveUpToRegridding | core/configMod.py:69-391 | running every block up to regridding equals `ConfigSpec.ResolveUpToRegridding` |
| ConfigMod.CheckWithin | core/configMod.py:84-87 | the loop finds no out-of-range element exactly when every element lies within both bounds |
| ConfigMod.CheckAtLeast | core/configMod.py:331-334 | the loop finds no element below the bound exactly when every element is at least the bound |
| ConfigSpec.Lookup | core/configMod.py:71 | `config[section][key]` yields a text exactly when the pair is configured, and that text is the configured one |
| ConfigSpec.ReadInt | core/configMod.py:107-114 | an integer option succeeds iff its text is configured and `int()` accepts it, with that value; a missing key and a malformed text each give their own error |
| ConfigSpec.ReadList | core/configMod.py:70-77 | a list option succeeds iff its text is configured and is a JSON list of integers, with that list; a missing key and a malformed text each give their own error |
| ConfigSpec.ReadDate | core/configMod.py:148-165 | a missing key is a MissingKey error; exactly the text `-9999` gives the sentinel; any other text of a length other than 12 is the length error; a 12-character text is the date `strptime` reads, or the improper-value error |
| ConfigSpec.FirstMissing | core/configMod.py:100-104 | the reported index is the first path that is not a directory, and every earlier path is one; with no index reported, every path is one |
| ConfigSpec.FirstMissingAt | core/configMod.py:100-104 | the first missing directory is determined by its position alone |
| ConfigSpec.ReadInputForcings | core/configMod.py:69-87 | accepted iff the configured list is non-empty with every code in 0..10; only the forcings and the input count change, to that list and its length; an empty list is the range error |
| ConfigSpec.ReadInputDirectories | core/configMod.py:89-104 | on success only the directories change; there is one per input, each stripped and an existing directory |
| ConfigSpec.ReadOutputFrequency | core/configMod.py:106-117 | accepted iff the configured text is an integer greater than zero; only the output frequency changes, to that integer; a non-positive integer is the range error |
| ConfigSpec.ReadOutputDir | core/configMod.py:119-130 | accepted iff OutDir is configured and names an existing directory; only the output directory changes, to the configured text; a missing key and a missing directory each give their own error |
| ConfigSpec.ReadRetroFlag | core/configMod.py:132-142 | accepted iff the configured integer is 0 or 1; only the flag changes, to that integer; any other integer is the range error |
| ConfigSpec.RetrospectiveWindow | core/configMod.py:144-193 | outside retrospective mode nothing changes; in it the pass is accepted iff BDateProc and EDateProc are both real dates with the end after the begin, the window is exactly those configured dates, and the step count is the whole output periods in the window |
| ConfigSpec.ForecastMode | core/configMod.py:195-264 | outside forecast mode nothing changes; in it the configured LookBack is stored; a value neither positive nor -9999 is the range error; a positive one selects realtime with sentinel dates; -9999 selects a reforecast, accepted iff RefcstBDateProc and RefcstEDateProc are real dates in order, whose dates are then exactly the configured ones |
| ConfigSpec.ReadForecastFrequency | core/configMod.py:266-285 | in forecast modes accepted iff the configured text is an integer in (0, 1440]; only the frequency changes, to that integer; non-positive and over-a-day values each give their own error; otherwise nothing changes |
| ConfigSpec.ReadForecastShift | core/configMod.py:287-305 | in realtime mode accepted iff the configured text is an integer of at least zero, which is stored; the window is then the one the lookback resolver returns; a negative shift is the range error; otherwise nothing changes |
| ConfigSpec.CountReforecasts | core/configMod.py:307-314 | in a reforecast the forecast count times the frequency is the window's length in minutes; otherwise nothing changes |
| ConfigSpec.ReadHorizons | core/configMod.py:316-334 | in forecast modes accepted iff the configured list has one horizon per input, each at least 1; only the horizons change, to that list |
| ConfigSpec.ReadOffsets | core/configMod.py:336-353 | in forecast modes accepted iff the configured list has one offset per input, each at least 0; only the offsets change, to that list |
| ConfigSpec.CycleLength | core/configMod.py:355-366 | in forecast modes the cycle is the largest horizon, and the step count times the output frequency is the cycle |
| ConfigSpec.ReadGeogrid | core/configMod.py:368-374 | accepted iff GeogridIn is configured and names an existing file; only the geogrid changes, to the configured text; a missing key and a missing file each give their own error |
| ConfigSpec.ReadRegridding | core/configMod.py:376-391 | accepted iff the configured list has one code per input, each in 1..3; only the regridding codes change, to that list; a list of the wrong length is the count error |
| ConfigSpec.ConfirmLookback | core/configMod.py:393-395 | in realtime mode the window is reset from the lookback resolver; otherwise the state is unchanged |
| ConfigSpec.ReadInterp | core/configMod.py:407-417 | accepted iff the configured list is present with one entry per input, and the result is that list |
| ConfigSpec.ReadInterpolation | core/configMod.py:407-495 | accepted iff all eight configured lists are present with one entry per input; only the eight lists change, each to its configured list |
| ConfigSpec.ResolveInputs | core/configMod.py:69-142 | after the input and output blocks only their fields have changed, and all of their checks hold together |
| ConfigSpec.ResolveMode | core/configMod.py:144-314 | after the mode blocks only the mode and window fields have changed, and the mode and window checks hold; non-reforecast runs keep the forecast count and retrospective runs keep the forecast settings |
| ConfigSpec.ResolveCycle | core/configMod.py:316-366 | after the horizon, offset and cycle blocks only their fields have changed, and the cycle checks hold |
| ConfigSpec.ResolveWindow | core/configMod.py:144-366 | after the mode and cycle blocks, the input checks, the mode checks and the cycle checks all hold |
| ConfigSpec.ResolveUpToRegridding | core/configMod.py:69-391 | every check up to regridding holds, and the path and start time are kept |
| ConfigSpec.Resolve | core/configMod.py:57-495 | a completed pass keeps the configuration path and start time, and its input, output, grid and interpolation checks all hold |
| ConfigProperties.ResolveSound | core/configMod.py:57-495 | a completed pass satisfies every check of every block, and keeps the configuration path and start time |
| ConfigProperties.LookbackStable | core/configMod.py:305 | the second lookback call (line 395) leaves the window the first call set |
| ConfigProperties.ExactlyOneMode | core/configMod.py:145-147 | exactly one of retrospective, realtime and reforecast holds |
| ConfigProperties.ResolvedArrayLengths | core/configMod.py:81 | every per-input list of a completed pass has one entry per input |
| ConfigProperties.RetroSteps | core/configMod.py:191-193 | the retrospective window is positive, and the step count counts whole output periods in it, with less than one period left over |
| ConfigProperties.ReforecastCount | core/configMod.py:307-314 | a reforecast issues at least one forecast, and the forecasts tile the window exactly |
| ConfigProperties.ForecastCountOnlyReforecast | core/configMod.py:307-314 | realtime and retrospective runs leave the forecast count as it was |
| ConfigProperties.RetroLeavesForecastFields | core/configMod.py:196 | a retrospective run leaves every forecast-mode field as it was |
| ConfigProperties.InputsErrorIsFinal | core/configMod.py:69-142 | an error in an input or output block is the error of the whole pass |
| ConfigProperties.ModeErrorIsFinal | core/configMod.py:144-314 | an error in a mode block is the error of the whole pass |
| ConfigProperties.MissingDirectory | core/configMod.py:100-104 | the first stripped entry that is not a directory is the one reported |
| ConfigProperties.DirectoriesStored | core/configMod.py:89-104 | with every directory present, the stripped entries are stored in order |
| ConfigProperties.RetroFlagValues | core/configMod.py:134-142 | a RetroFlag is accepted iff it is 0 or 1, and is then stored |
| ConfigProperties.LookBackValues | core/configMod.py:199-213 | a LookBack that is neither positive nor -9999 is rejected; a positive one selects realtime with sentinel dates |
| ConfigProperties.RetroBeginSentinelRejected | core/configMod.py:181-182 | a sentinel begin with a real end is rejected as a cross-field inconsistency |
| ConfigProperties.RetroEndSentinelRejected | core/configMod.py:188-189 | a real begin with a sentinel end is rejected as a cross-field inconsistency |
| ConfigProperties.RetroBothSentinelsCrash | core/configMod.py:192-193 | two sentinel dates get past the date checks and then fail computing the step count |
| ConfigProperties.RetroOrderRejected | core/configMod.py:183-185 | an end that is not after the begin is rejected |
| ConfigProperties.RetroAccepted | core/configMod.py:144-193 | two written dates with the end after the begin are accepted as the window, with the whole output periods between them as the step count |
| ConfigProperties.RefcstBeginSentinelRejected | core/configMod.py:211-232 | LookBack -9999 with a reforecast begin of -9999 is rejected for the missing reforecast range |
| ConfigProperties.RefcstEndSentinelRejected | core/configMod.py:234-252 | LookBack -9999 with a written begin and an end of -9999 is rejected for the missing reforecast range |
| ConfigProperties.RefcstOrderRejected | core/configMod.py:253-255 | a reforecast end that is not after its begin is rejected |
| ConfigProperties.ReforecastAccepted | core/configMod.py:211-255 | LookBack -9999 with two written dates in order selects a reforecast over exactly those dates |
| ConfigProperties.OutputFrequencyValues | core/configMod.py:106-117 | a written OutputFrequency is stored iff positive, and is otherwise the range error |
| ConfigProperties.ForecastFrequencyValues | core/configMod.py:266-285 | a written ForecastFrequency is stored iff in 1..1440, and otherwise gives the error for its side |
| ConfigProperties.ForecastShiftValues | core/configMod.py:287-305 | a written ForecastShift is stored iff at least zero, with the lookback resolver's window, and is otherwise the range error |
| ConfigProperties.HorizonsAccepted | core/configMod.py:316-334 | written horizons are accepted iff one per input and each at least 1, and then stored as written |
| ConfigProperties.OffsetsAccepted | core/configMod.py:336-353 | written offsets are accepted iff one per input and none negative, and then stored as written |
| ConfigProperties.InterpAccepted | core/configMod.py:407-417 | a written interpolation list is read back iff it has one entry per input, and is otherwise the length error |
| ConfigProperties.ReforecastDivisibility | core/configMod.py:307-314 | a reforecast window is accepted iff the frequency divides it, and the count is then the quotient |
| ConfigProperties.CycleDivisibility | core/configMod.py:355-366 | a cycle is accepted iff the output frequency divides the largest horizon, and the steps are then the quotient |
| ConfigProperties.OneDay | core/configMod.py:191-193 | 2020-01-01 00:00 to 2020-01-02 00:00 is 1440 minutes |
| ConfigProperties.RetroOneDayHourly | core/configMod.py:144-193 | a one-day retrospective window at 60-minute output has 24 steps |
| ConfigProperties.ReforecastOneDay | core/configMod.py:307-314 | a one-day reforecast holds 4 forecasts of 360 minutes and is rejected at 500 minutes |
| ConfigProperties.CycleExample | core/configMod.py:355-366 | horizons 180 and 360 give 4 steps at 90-minute output and are rejected at 70 minutes |
| ConfigProperties.ListRoundTrip | core/configMod.py:71 | a list option written as `json.dumps` writes it is read back as itself |
| ConfigProperties.IntRoundTrip | core/configMod.py:108 | an integer option written as `str` writes it is read back as itself |
| ConfigProperties.DateRoundTrip | core/configMod.py:153-159 | a date written as `strftime('%Y%m%d%H%M')` is read back as itself |
| ConfigProperties.ForcingsAccepted | core/configMod.py:69-87 | a non-empty list of codes in 0..10 is stored, with its length as the input count |
| ConfigProperties.RegridAccepted | core/configMod.py:376-391 | one code in 1..3 per input is stored |
| ConfigProperties.RetroInputsAccepted | core/configMod.py:69-142 | one in-range forcing code, its directory, a positive output frequency, an existing output directory and RetroFlag 1 pass the input blocks and are stored as written |
| ConfigProperties.RetroWindowAccepted | core/configMod.py:144-366 | in retrospective mode the window blocks set the two written dates and the step count, and touch no forecast field |
| ConfigProperties.OneInputRegridAccepted | core/configMod.py:376-391 | one regridding code in 1..3 passes for a one-input run |
| ConfigProperties.OneInputInterpolationAccepted | core/configMod.py:407-495 | eight one-entry interpolation lists pass for a one-input run |
| ConfigProperties.RetroConfigurationAccepted | core/configMod.py:57-495 | a one-input retrospective configuration with every value in range and its paths present gets through the whole pass, and every option is stored as written |
| Calendar.ParseStamp | core/configMod.py:159 | `strptime` accepts only real calendar dates |
| Calendar.ParseFormat | core/configMod.py:159 | `strptime` reads back what `strftime` writes with the same format |
| Calendar.SentinelNotStamp | core/configMod.py:153-164 | no formatted date is the text `-9999` |
| Calendar.Minutes | core/configMod.py:191-192 | minutes since 0001-01-01 00:00 are never negative; the day count is the ordinal less one and the remainder the minute of the day |
| Calendar.SpanMinutes | core/configMod.py:191-192 | a span is positive iff the begin is before the end, and zero iff they are the same moment |
| Calendar.Before | core/configMod.py:183 | a moment is never before itself |
| Calendar.BeforeIffMinutes | core/configMod.py:183 | datetime order is the order of minutes since year 1 |
| Calendar.MinutesInjective | core/configMod.py:191-193 | distinct dates are distinct minutes |
| Calendar.DaysInMonth | core/configMod.py:159 | months have 28 to 31 days, and February has 29 exactly in leap years |
| Calendar.YearLength | core/configMod.py:159 | a year has 366 days iff it is a leap year, else 365; a helper of the date round trip |
| Lists.Max | core/configMod.py:357 | `max` returns an element of the list that no element exceeds |
| Lists.MaxUnique | core/configMod.py:357 | those two properties determine the maximum |
| PyText.LStrip | Util/gr3_2_esmf.py:58 | the result is no longer than the input and does not start with whitespace |
| PyText.RStrip | Util/gr3_2_esmf.py:54 | the result is no longer than the input and does not end with whitespace |
| PyText.LStripRemovesSpace | Util/gr3_2_esmf.py:58 | `lstrip` removes a prefix that is all whitespace |
| PyText.RStripRemovesSpace | Util/gr3_2_esmf.py:54 | `rstrip` removes a suffix that is all whitespace |
| PyText.Strip | core/configMod.py:101 | the result neither starts nor ends with whitespace |
| PyText.StripPadded | core/configMod.py:101 | `strip` recovers exactly the text between surrounding whitespace |
| PyText.StripStripped | core/configMod.py:101 | `strip` leaves an already-stripped string alone |
| PyText.Split | core/configMod.py:91 | the pieces joined by the separator give back the text, and no piece holds the separator |
| PyText.SplitJoin | core/configMod.py:91 | splitting the joined pieces gives back the pieces |
| PyText.SplitCount | core/configMod.py:91-95 | the number of pieces is one more than the number of commas |
| PyText.WordEnd | Util/gr3_2_esmf.py:58 | the first word ends at the first whitespace character |
| PyText.Words | Util/gr3_2_esmf.py:55 | every word is non-empty and whitespace-free, and there are none exactly when the text is all whitespace |
| PyText.WordsUnwords | Util/gr3_2_esmf.py:58 | words joined by single spaces split back into the same words |
| PyText.ParseShowInt | core/configMod.py:108 | `int()` reads back what `str()` writes |
| PyText.ParseInt | core/configMod.py:108 | `int()` reads an unsigned digit run as its value; any accepted text is, once stripped, a digit run after at most a sign, and a negative value has a minus sign |
| PyText.ParseIntRun | core/configMod.py:108 | `int()` reads a digit run as the number it spells |
| PyText.ParseIntNegativeRun | core/configMod.py:108 | `int()` reads a minus sign and a digit run as the negated number |
| PyText.ShowIntIsWord | Util/gr3_2_esmf.py:63-64 | `str(n)` is a single whitespace-free word; a helper of the element-line round trip |
| PyText.ShowNat | core/configMod.py:108 | `str(n)` of a natural number is a non-empty run of digits |
| PyText.ShowNatValue | core/configMod.py:108 | the digits of `str(n)` spell n |
| PyText.ParseShowIntList | core/configMod.py:71 | `json.loads` reads back the integer list `json.dumps` writes |
| PyText.ParseIntList | core/configMod.py:71 | `json.loads` of an integer list accepts only a text that starts, after JSON whitespace, with `[` |
| PyText.LexShowInt | core/configMod.py:71 | a JSON integer written as `str` writes it is lexed back, leaving the rest of the text |
| PyText.ParseItemsAfter | core/configMod.py:71 | the items after the first and the closing bracket are read back |
| Gr3Esmf.Gr3.constructor | Util/gr3_2_esmf.py:18-25 | the counts are stored; every coordinate is the fill value and every element is empty, one per node and one per element |
| Gr3Esmf.Gr3.ElemLens | Util/gr3_2_esmf.py:30-31 | one length per element, equal to that element's length |
| Gr3Esmf.Gr3.MaxElemLen | Util/gr3_2_esmf.py:27-28 | absent iff there are no elements (where `max` raises); otherwise the length of some element, and no element is longer |
| Gr3Esmf.Gr3.PaddedElems | Util/gr3_2_esmf.py:33-35 | absent iff there are no elements; otherwise every row has the maximum length and starts with its element, followed by padding only |
| Gr3Esmf.Gr3.PaddedUnpad | Util/gr3_2_esmf.py:33-35 | cutting each padded row back to its element's length gives back the elements |
| Gr3Esmf.PadUnpad | Util/gr3_2_esmf.py:33-35 | padding to a width at least every row's length gives rows of that width, and cutting back recovers the rows |
| Gr3Esmf.Lengths | Util/gr3_2_esmf.py:30-31 | one length per row, equal to that row's length |
| Gr3Esmf.ParseHeader | Util/gr3_2_esmf.py:54-56 | the header is accepted iff the second line is exactly two integers; the name is the first line right-stripped |
| Gr3Esmf.ParseNode | Util/gr3_2_esmf.py:58-61 | a node line is accepted iff it has four words and `float()` accepts the last three, which become the coordinates, each a whitespace-free word |
| Gr3Esmf.ParseElem | Util/gr3_2_esmf.py:62-64 | an element line is accepted iff it has at least two words and every later word is an integer; it has one id per later word |
| Gr3Esmf.ParseIds | Util/gr3_2_esmf.py:64 | the ids are accepted iff every word is an integer, and each id is that integer minus one, in order |
| Gr3Esmf.ParseRows | Util/gr3_2_esmf.py:57-64 | a success has one value per row, and a failure names a row within the section |
| Gr3Esmf.RowsMeaning | Util/gr3_2_esmf.py:57-64 | a section parses iff every row parses; values are the rows' values in order; a failure is the first row that does not parse |
| Gr3Esmf.RowsLocal | Util/gr3_2_esmf.py:57-64 | a section's result depends only on the section's own lines |
| Gr3Esmf.RowsFailureStays | Util/gr3_2_esmf.py:57-64 | once a row fails, reading more rows reports the same row |
| Gr3Esmf.MeshFrom | Util/gr3_2_esmf.py:55-66 | a parsed mesh has one coordinate of each kind per node and one element per element; a bad line's index lies within its section |
| Gr3Esmf.ParseMesh | Util/gr3_2_esmf.py:41-66 | the header error happens exactly when the first two lines are not a header; a parsed mesh is named by the first line right-stripped and has one coordinate of each kind per node and one element per element |
| Gr3Esmf.TrailingLinesIgnored | Util/gr3_2_esmf.py:45-50 | lines after the element section, such as the boundary lists, do not change the result |
| Gr3Esmf.ShowIds | Util/gr3_2_esmf.py:64 | one word per id |
| Gr3Esmf.Render | Util/gr3_2_esmf.py:45-50 | a rendered file has the two header lines, one line per node and one per element |
| Gr3Esmf.ParseIdsShow | Util/gr3_2_esmf.py:64 | the ids written one-based are read back zero-based as themselves |
| Gr3Esmf.NodeLineParses | Util/gr3_2_esmf.py:58-61 | a node line of four words whose last three `float()` accepts yields those three coordinates |
| Gr3Esmf.ElemLineParses | Util/gr3_2_esmf.py:63-64 | an element line yields its ids whatever node count it states, since the count is never checked |
| Gr3Esmf.HeaderParses | Util/gr3_2_esmf.py:54-56 | a written name line and count line are read back |
| Gr3Esmf.RowsAllParse | Util/gr3_2_esmf.py:57-64 | when every row parses to a value, the section is those values |
| Gr3Esmf.RenderParses | Util/gr3_2_esmf.py:41-66 | a well-formed mesh written out is parsed back as itself, whatever lines follow it |
| Gr3Esmf.ReadNodes | Util/gr3_2_esmf.py:57-61 | filling the node arrays line by line fails at the first bad node line exactly when the section does not parse; otherwise the arrays hold the parsed coordinates |
| Gr3Esmf.ReadElems | Util/gr3_2_esmf.py:62-64 | filling the element array line by line fails at the first bad element line exactly when the section does not parse; otherwise the array holds the parsed elements |
| Gr3Esmf.ReadMesh | Util/gr3_2_esmf.py:55-66 | the new object is valid and holds `MeshFrom`'s mesh, or the read fails with `MeshFrom`'s error |
| Gr3Esmf.ParseGr3File | Util/gr3_2_esmf.py:41-66 | `parse_gr3_file` returns a new, valid object holding the mesh `ParseMesh` reads, or fails with `ParseMesh`'s error |

## Left out

Three behaviours of the code are modelled as written:

- **Both retrospective dates -9999.** It gets past the checks at lines 181-189. Line 192 then
  computes `-9999 - -9999`, an `int` without `.days`.
  `ConfigProperties.RetroBothSentinelsCrash` shows that such a window is
  rejected, with the error kind `Unhandled`.
- **InputForcings range.** The code accepts codes from 0 to 10 (line 85), while the
  message says 1 to 10. The model accepts 0.
- **A missing InputForcingDirectories.** It is read with `config.get`, whose
  `NoOptionError` or `NoSectionError` is not a `KeyError`. The `except` at line 92
  does not catch it, so the model classes it as `Unhandled`.

Outside the model:

- Reading the configuration file (lines 63-67) is outside the model. The model
  starts from the parsed `configparser` contents, a map from (section, key) to
  text. Interpolation of `%(name)s` references is outside it too.
- `print` and the `strftime` messages at lines 290 and 397-401 are output only, so
  they are left out.
- `err_out_screen` ends the process. The model does not describe what the fields
  hold after a failure.
- `datetime.utcnow()` (line 55) is not modelled; the start time is the
  constructor's `programInit` parameter.
- `dateMod.calculate_lookback_window` is not part of this model. It is the
  function `Env.lookback` of the start time, LookBack, ForecastShift and
  ForecastFrequency.
- `os.path.isdir` and `os.path.isfile` are the predicates `Env.isDir` and
  `Env.isFile`.
- `json.loads` is modelled only for documents that are one array of integers:
  - any other document (a number, nested arrays, strings, floats, `true`) is a
    parse error in the model;
  - in Python those texts are accepted and then fail, or pass, later checks.
- Characters outside ASCII are not modelled in three places:
  - `int()` in Python also accepts Unicode decimal digits; the model accepts only
    ASCII digits and underscores;
  - `strptime`'s `%Y%m%d%H%M` fields match any Unicode decimal digit, so a text
    such as "٢٠٢٠٠١٠١٠٠٠٠" is a date to Python; the model accepts only ASCII digits;
  - `str.strip` and `str.split()` use a fixed table of Unicode whitespace, which
    stands for Python's `str.isspace`.
- `Calendar.ParseStamp`: accepts only ASCII digits in the twelve positions, where
  `strptime` also takes other Unicode decimal digits (see above).
- `ConfigSpec.Lookup`: matches section and key exactly. `configparser` lower-cases
  option names through `optionxform`, so `outputfrequency` and `OutputFrequency`
  name the same option, and `config[section][key]` falls back on the `[DEFAULT]`
  section. The model's map is taken to hold the options after both steps.
- The attributes that `read_config` never reads or writes are not part of the
  state: `current_fcst_cycle`, `current_output_date`, `process_window` and the
  other unused ones.
- The class groups its attributes into per-section records (`InputOptions`,
  `WindowOptions`, …). `State()` flattens them into one `ConfigState`.
- `float()` in the mesh reader is not modelled:
  - whether it accepts a text is the parameter `isFloat`;
  - a coordinate keeps the text it was read from;
  - floating-point values and their formatting are not modelled.
- `int()` on the counts happens in `gr3.__init__` (lines 20-21). In the model it
  happens in `ParseHeader`; the error is the same, `BadHeader`.
- The node and element readers take their line parser as a parameter.
  `ParseGr3File` passes the real ones: `NodeParser(isFloat)` and `ParseElem`.
- A negative count is modelled, not left out. It gives empty lists and `range`
  loops that do nothing, as in Python (`Count`).
- Opening the file and decoding it into lines is not modelled. A line is a string
  without its terminator, and reading past the end yields "".
- `self.elems = [[]] * num_elem` makes every slot alias one list. Each slot is then
  replaced, never mutated, so the aliasing has no effect and is not modelled.
- `write_nc_mesh`, `main` and `gr3.__str__` are left out: they are NetCDF output,
  the command line and text formatting.
- `ConfigSpec.CycleLength`: the step count is the exact integer quotient of the
  cycle by the output frequency. Line 366 computes `int(cycle / output_freq)` in
  floating point, which rounds once the quotient passes 2^53 (a horizon of
  2^53 + 1 minutes at frequency 1 gives 2^53) and raises `OverflowError` when an
  operand is past the float range. `ConfigMod.ConfigOptions.CycleLength` and
  `ConfigProperties.CycleDivisibility` inherit the exact quotient.
- `ConfigSpec.RetrospectiveWindow`: the step count is the exact floor quotient of
  the window's minutes by the output frequency. Line 193 divides in floating point
  and truncates with `int()`; an OutputFrequency past the float range raises an
  uncaught `OverflowError` there, where the model succeeds with 0 steps.
  `ConfigMod.ConfigOptions.RetrospectiveWindow` and `ConfigProperties.RetroAccepted`
  inherit the exact quotient.
- `ConfigSpec.ReadInt`: accepts digit runs of any length. Python 3.11 and later
  refuse, with `ValueError`, to convert a text of more than 4300 digits, which the
  source reports as an improper value.
- `ConfigSpec.ReadList`: accepts integers of any length. `json.loads` raises
  `ValueError` for an integer of more than 4300 digits on Python 3.11 and later,
  which the source does not catch.
- `Gr3Esmf.Gr3.PaddedElems`: `pad_val` defaults to -1 as in the source. Python
  would also accept a non-integer pad value; the model does not.
