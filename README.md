# Lake Shore 335 scripts — a Dafny model

The repository is three Tkinter/pyvisa scripts for a Lake Shore Model 335 temperature
controller. Under the widgets, each one holds a small sequential engine, and this project
models those engines and proves properties about them.

- **Temperature monitoring** (`Lake_Shore_335_Temperature_Monitoring.py`), class `Monitoring.Lakeshore335App`:
  - A timer tick reads channels A and B.
  - It appends the time, A, B and |A − B| to four bounded FIFO histories of 45 000 000 entries.
  - It updates the heating rates in K/min.
  - It recomputes the first- and second-difference series and splits each into a non-negative and a negative plot trace.
  - When logging is on, it appends a CSV row.
  - The Connect/Disconnect button connects on demand and disconnects with `*CLS`, `SYST:REM` and close.
  - There are also CSV logging on/off, Reset Time, and the validated setting fields.
- **Earlier monitoring variant** (`Read_Temperature_from_Lake_Shore_335_with_GUI_with_csv_V28.py`), class `MonitoringV28.Lakeshore335App`:
  - The same tick without the difference series, with 100 000-entry histories.
  - The instrument is connected once, when the window is built.
  - Start/Stop flips the run flag without touching the connection. Starting also resets the time base and the histories and runs the first tick.
- **Heater controller** (`Lake_Shore_Model_335_Heater_with_GUI_Two_Heaters_Option_PID_V8.py`), class `Heater.LakeShoreController`:
  - The range-name → RANGE-code table and the range-name → wattage-ceiling table.
  - The power conversion.
  - The five-command start sequence and the one-command stop.
  - The "connect if no instrument, otherwise give up" gate of the setters, and the PID setter.

The instrument is the class `Instrument.Device`:
- `connected` stands for "an instrument object is held" (`inst` / `instrument` is not `None`).
- `log` holds the commands the instrument accepted, as a `Command` datatype rather than command text.
- `calls` counts the I/O calls made so far.
- The constant set `faults` says which calls raise: call number k fails exactly when `k ∈ faults`.
- The readings an instrument answers, the wall-clock time and the parsed contents of the entry fields are method parameters. A field that does not parse as a number is `None`.

The CSV file is the class `CsvLog.CsvFile`. It holds the rows written to it, as `Row` values, and fails the same way as the instrument.

Points of the code's behaviour worth knowing:
- The difference series divide by the time step without a guard. Two equal consecutive timestamps therefore make the tick raise. Nothing is filled with zeros, so the series are defined only under `Derivatives.DistinctSteps`. `Monitoring.Lakeshore335App.Tick` models the raise: the tick stops after the histories and rates are updated, and no CSV row is written and no next tick is scheduled. The heating rate does use the `Δt > 0` guard and is 0 otherwise.
- For the three samples 300 K, 302 K and 303 K one second apart, the second difference at index 2 is (303 − 2·302 + 300)/1² = −1.0 (`Derivatives.ThreeSampleScenario`).
- The heater power uses one ceiling table keyed by the range name, the same for both outputs. It returns watts only.
- The previous reading is never cleared, not even when a run starts. The first rate of a new run is therefore taken against the last reading of the run before. Its time is measured from the new time base, so when it is not later than that reading's time, the Δt > 0 guard gives rates of 0 (`Telemetry.RateWithoutSlope`).

## Model

| member | source | states |
|---|---|---|
| Instrument.Device.constructor | Lake_Shore_335_Temperature_Monitoring.py:19 | a new instrument handle is not connected, has no log and has made no calls |
| Instrument.Device.Open | Lake_Shore_335_Temperature_Monitoring.py:631-640 | opening succeeds exactly when this call does not fault; connected afterwards iff it succeeded; one call used |
| Instrument.Device.Ask | Lake_Shore_335_Temperature_Monitoring.py:642-650 | a query answers iff connected and the call does not fault; it uses a call only when connected; the log and connection are unchanged |
| Instrument.Device.Write | Lake_Shore_Model_335_Heater_with_GUI_Two_Heaters_Option_PID_V8.py:66-71 | a write is accepted iff connected and the call does not fault; exactly the accepted command is appended to the log |
| Instrument.Device.Close | Lake_Shore_Model_335_Heater_with_GUI_Two_Heaters_Option_PID_V8.py:129-132 | closing uses one call when connected, writes nothing and keeps the handle |
| Instrument.Device.Drop | Lake_Shore_335_Temperature_Monitoring.py:687-689 | forgetting the instrument disconnects it without any I/O |
| Instrument.PairCalls | Lake_Shore_Model_335_Heater_with_GUI_Two_Heaters_Option_PID_V8.py:29-32 | a pair of I/O steps whose second is tried only after the first goes through uses no call when skipped, one when the first raises and two otherwise; the heater's connect-on-demand gate (open, identity query) and the start of CSV logging (open, header, at Lake_Shore_335_Temperature_Monitoring.py:736-741) are such pairs |
| CsvLog.Values | Lake_Shore_335_Temperature_Monitoring.py:413-417 | a data row has one value per header column, in header order |
| CsvLog.CsvFile.constructor | Lake_Shore_335_Temperature_Monitoring.py:23-24 | no file is open and nothing has been written |
| CsvLog.CsvFile.Open | Lake_Shore_335_Temperature_Monitoring.py:736 | opening for writing truncates the file on success; a failed open changes no rows |
| CsvLog.CsvFile.WriteRow | Lake_Shore_335_Temperature_Monitoring.py:413-421 | a row is appended iff the file is open and the call does not fault |
| CsvLog.CsvFile.Close | Lake_Shore_335_Temperature_Monitoring.py:747-748 | the file is closed and its rows are kept |
| History.Window | Lake_Shore_335_Temperature_Monitoring.py:38-41 | the newest `cap` elements of a stream, at most `cap` of them |
| History.Push | Lake_Shore_335_Temperature_Monitoring.py:316-319 | an append to a bounded deque grows it by one until it is full, never beyond `cap`, and the new element is last |
| History.PushEmpty | Lake_Shore_335_Temperature_Monitoring.py:661-665 | the first append after a clear gives the one-element history |
| History.PushIsWindow | Read_Temperature_from_Lake_Shore_335_with_GUI_with_csv_V28.py:32-35 | one append keeps exactly the newest `cap` of the old elements followed by the new one |
| History.PushWindow | Read_Temperature_from_Lake_Shore_335_with_GUI_with_csv_V28.py:229-232 | appending to the window of a stream gives the window of the longer stream |
| History.PushAllWindow | Lake_Shore_335_Temperature_Monitoring.py:38-41 | after any run of appends a history is the newest `cap` elements of everything appended, in order; overflow drops only the oldest |
| History.FromEmpty | Read_Temperature_from_Lake_Shore_335_with_GUI_with_csv_V28.py:274-277 | from a cleared history, appends keep everything while under the bound |
| Derivatives.FirstDerivative | Lake_Shore_335_Temperature_Monitoring.py:322-332 | the first-difference series has the history's length and starts with 0; defined only when no two consecutive timestamps are equal |
| Derivatives.SecondDerivative | Lake_Shore_335_Temperature_Monitoring.py:354-369 | the second-difference series has the history's length and starts with 0, 0 |
| Derivatives.SplitPartitions | Lake_Shore_335_Temperature_Monitoring.py:337-340 | every index is in exactly one trace: values ≥ 0 are in the non-negative trace and values < 0 in the negative one, each unchanged |
| Derivatives.MergeSplit | Lake_Shore_335_Temperature_Monitoring.py:374-377 | merging the two traces gives the series back, so the split loses nothing |
| Derivatives.IntegralOfFirstDerivative | Lake_Shore_335_Temperature_Monitoring.py:323-332 | adding slope × step to v[0] gives back every sample, so the first differences lose only the start value |
| Derivatives.SecondIsSlopeOfFirst | Lake_Shore_335_Temperature_Monitoring.py:355-369 | on evenly spaced samples the second difference is the difference of consecutive first differences divided by the step |
| Derivatives.ThreeSampleScenario | Lake_Shore_335_Temperature_Monitoring.py:322-369 | 300, 302, 303 K one second apart give first differences [0, 2, 1] and second differences [0, 0, −1] |
| Telemetry.Abs | Lake_Shore_335_Temperature_Monitoring.py:281 | \|A − B\| is non-negative and is ±(A − B) |
| Telemetry.RateWithoutSlope | Lake_Shore_335_Temperature_Monitoring.py:289-296 | without a previous reading the rates shown stay as they were; when no time has elapsed since it (or the clock went back) both rates are exactly 0 |
| Telemetry.RateTimesMinutes | Lake_Shore_335_Temperature_Monitoring.py:289-301 | with a previous reading and Δt > 0, rate × elapsed minutes equals the temperature change, on both channels |
| Telemetry.RateSign | Lake_Shore_335_Temperature_Monitoring.py:289-301 | the rate is positive iff the channel warmed and negative iff it cooled |
| Telemetry.RateIsSixtyTimesSlope | Lake_Shore_335_Temperature_Monitoring.py:289-332 | the heating rate is 60 × the newest first difference of the histories |
| Telemetry.GetTemperature | Lake_Shore_335_Temperature_Monitoring.py:642-650 | a reading exists iff connected and both queries answer; the log and connection are unchanged; the calls used are 0, 1 or 2 |
| Telemetry.RowOf | Read_Temperature_from_Lake_Shore_335_with_GUI_with_csv_V28.py:252-254 | a CSV row carries time, A, B, \|A − B\|, rate A and rate B in header order, with \|A − B\| ≥ 0 |
| Telemetry.ScaleEntry | Lake_Shore_335_Temperature_Monitoring.py:763-774 | a y-scale pair is accepted iff both entries parse and lower < upper, and then both bounds are taken |
| Telemetry.PushPaired | Lake_Shore_335_Temperature_Monitoring.py:316-318 | after appends to the A, B and \|A − B\| histories, each difference entry is still the difference of the entries at its index |
| Heater.RangeCode | Lake_Shore_Model_335_Heater_with_GUI_Two_Heaters_Option_PID_V8.py:119-127 | the code is in 1..3 and never 0: Med ↦ 2, High ↦ 3, everything else 1 |
| Heater.TablesAgree | Lake_Shore_Model_335_Heater_with_GUI_Two_Heaters_Option_PID_V8.py:101-127 | every name gets the ceiling of the code it is sent as, the ceiling is positive, and each range is ten times the one below |
| Heater.OutputWithinCeiling | Lake_Shore_Model_335_Heater_with_GUI_Two_Heaters_Option_PID_V8.py:95-111 | a raw output in [0, 100] % converts to watts in [0, ceiling], with 100 % giving exactly the ceiling |
| Heater.StartSequenceShape | Lake_Shore_Model_335_Heater_with_GUI_Two_Heaters_Option_PID_V8.py:66-71 | the start sequence is five commands addressed to the selected output: OUTMODE, SETP, RAMP, a nonzero RANGE, PID |
| Heater.LakeShoreController.constructor | Lake_Shore_Model_335_Heater_with_GUI_Two_Heaters_Option_PID_V8.py:8-16 | the defaults: 310 K, 0.1 K/min, 25 W, "Low", output 2, gains 50/10/0, no instrument |
| Heater.LakeShoreController.Connect | Lake_Shore_Model_335_Heater_with_GUI_Two_Heaters_Option_PID_V8.py:18-26 | connected afterwards iff both the open and the identity query succeed; nothing is written |
| Heater.LakeShoreController.ConnectIfNeeded | Lake_Shore_Model_335_Heater_with_GUI_Two_Heaters_Option_PID_V8.py:29-32 | an instrument that is already held is kept without I/O; otherwise one connection attempt is made, using exactly the gate's calls |
| Heater.LakeShoreController.SetSetpoint | Lake_Shore_Model_335_Heater_with_GUI_Two_Heaters_Option_PID_V8.py:28-42 | no instrument or no number: nothing written and the setpoint is kept; otherwise the setpoint is stored first, and the outcome is `Done` with exactly one SETP to the selected output logged iff that write does not raise; the calls used are exactly the gate's plus the one write |
| Heater.LakeShoreController.SetRampRate | Lake_Shore_Model_335_Heater_with_GUI_Two_Heaters_Option_PID_V8.py:44-58 | as the setpoint, with RAMP and the ramp rate: `Done` iff the RAMP write does not raise |
| Heater.LakeShoreController.StartHeating | Lake_Shore_Model_335_Heater_with_GUI_Two_Heaters_Option_PID_V8.py:60-76 | without an instrument nothing is written; otherwise the writes go out in order and stop at the first faulting call: the log grows by the whole sequence when none of the five calls faults, else by exactly the writes before the faulting one, and the calls used are the gate's plus the writes attempted |
| Heater.LakeShoreController.StopHeating | Lake_Shore_Model_335_Heater_with_GUI_Two_Heaters_Option_PID_V8.py:78-88 | without an instrument nothing happens and no connection is attempted; otherwise exactly RANGE h,0 is written, or nothing if it raises |
| Heater.LakeShoreController.GetHeaterPower | Lake_Shore_Model_335_Heater_with_GUI_Two_Heaters_Option_PID_V8.py:90-117 | N/A without an instrument, Error when the query raises, otherwise raw/100 × the selected range's ceiling |
| Heater.LakeShoreController.SetPid | Lake_Shore_Model_335_Heater_with_GUI_Two_Heaters_Option_PID_V8.py:134-143 | the gains are stored even if the write fails; exactly one PID write goes to the selected output, and there is no connect: one call when an instrument is held, none otherwise |
| Heater.LakeShoreController.SelectHeater | Lake_Shore_Model_335_Heater_with_GUI_Two_Heaters_Option_PID_V8.py:189-191 | "Heater 1" selects output 1 and anything else output 2, so the output is always 1 or 2 |
| Heater.LakeShoreController.SelectRange | Lake_Shore_Model_335_Heater_with_GUI_Two_Heaters_Option_PID_V8.py:180-181 | the range name is stored and nothing is sent |
| Heater.LakeShoreController.Close | Lake_Shore_Model_335_Heater_with_GUI_Two_Heaters_Option_PID_V8.py:129-132 | a held session is closed with one call and nothing is written |
| Monitoring.PanelOf | Lake_Shore_335_Temperature_Monitoring.py:337-345 | the four traces of a panel are complementary per channel and merge back to the A and B series |
| Monitoring.ResetKeepsCoolingTrace | Lake_Shore_335_Temperature_Monitoring.py:805-808 | as written, a reset leaves channel B's negative first-difference trace in place |
| Monitoring.Cleared | Lake_Shore_335_Temperature_Monitoring.py:805-812 | the corrected reset empties all four traces whatever they held |
| Monitoring.Lakeshore335App.constructor | Lake_Shore_335_Temperature_Monitoring.py:14-63 | the defaults: stopped, not logging, 1 s interval, 300 s range, the four y scales, empty histories and panels, no previous reading, rates 0; no connection; no file call made yet, so the file's fault numbers count from its first open |
| Monitoring.Lakeshore335App.Tick | Lake_Shore_335_Temperature_Monitoring.py:276-429 | a failed read changes no data or file and reschedules iff running; a successful one appends one entry to each history and updates prev and rates; the tick then either aborts on a zero step without rescheduling, or redraws the panels, logs the row (logging switches off if the write raises) and reschedules iff running; it makes exactly the 0/1/2 instrument queries of the read and one file write iff it gets to log |
| Monitoring.Lakeshore335App.Record | Lake_Shore_335_Temperature_Monitoring.py:289-319 | the rates follow the guarded rule, prev becomes the new reading, each history gets one append, and the histories stay paired |
| Monitoring.Lakeshore335App.Redraw | Lake_Shore_335_Temperature_Monitoring.py:322-377 | fails iff two consecutive timestamps are equal; otherwise the first panel is redrawn from ≥ 2 samples and the second from ≥ 3 |
| Monitoring.Lakeshore335App.LogReading | Lake_Shore_335_Temperature_Monitoring.py:413-421 | when logging, exactly the tick's row is appended with one file call, or logging ends with the file closed if the write raises; when not logging, no file call and nothing changes |
| Monitoring.Lakeshore335App.ConnectToInstrument | Lake_Shore_335_Temperature_Monitoring.py:631-640 | connected iff the open succeeds, with one call and no write |
| Monitoring.Lakeshore335App.ToggleReading | Lake_Shore_335_Temperature_Monitoring.py:652-689 | from stopped it runs iff the connect succeeds, and then resets the time base and histories and runs a tick, at its own later clock read, whose reading, rates and CSV row are stated (`FirstTick`); a failed connect changes no data; from running it ends stopped and disconnected with *CLS and SYST:REM logged as far as they got, the data and file untouched; either branch makes exactly the calls `StartStopCalls` counts |
| Monitoring.Lakeshore335App.Farewell | Lake_Shore_335_Temperature_Monitoring.py:676-681 | the disconnect writes are a prefix of *CLS, SYST:REM, and both get through iff neither write faults |
| Monitoring.Lakeshore335App.StartStopCalls | Lake_Shore_335_Temperature_Monitoring.py:653-689 | either branch of the button makes one to three calls, three iff neither of the first two raises, and otherwise stops at the call that raised |
| Monitoring.Lakeshore335App.StartReading | Lake_Shore_335_Temperature_Monitoring.py:653-667 | it enters running iff the connect attempt succeeds, then the first tick, at its own clock read, leaves the state `FirstTick` states, file calls included; on failure no data, rate or file changes; the open and the two queries stop at the first call that raises |
| Monitoring.Lakeshore335App.BeginRun | Lake_Shore_335_Temperature_Monitoring.py:657-665 | start time = `now`, the histories are cleared, then the first tick, reading the clock at `tickNow`, leaves one entry or none, at elapsed time `tickNow − now`; that reading becomes the previous reading, its rate is taken against the previous run's last reading, its CSV row is logged as in a tick, and the panels are untouched; one or two queries, the second only if the first answers |
| Monitoring.Lakeshore335App.Restart | Lake_Shore_335_Temperature_Monitoring.py:660-664 | a run opens with start time = now and empty histories; the previous reading, the rates, the panels, the settings and the flags are kept |
| Monitoring.Lakeshore335App.StopReading | Lake_Shore_335_Temperature_Monitoring.py:668-689 | it always ends stopped and without an instrument, whatever the writes and close do; histories, previous reading, rates, panels and logging are untouched; *CLS, SYST:REM and the close stop at the first call that raises |
| Monitoring.Lakeshore335App.ToggleCsvLogging | Lake_Shore_335_Temperature_Monitoring.py:731-750 | starting with a path logs iff the open and the header write both succeed, the file then holding just the header; a failed open leaves the file as it was; an open whose header write raises leaves the file open and empty with logging off; an empty path changes nothing; the file calls are exactly `PairCalls` of the open and the header; stopping closes and disables |
| Monitoring.Lakeshore335App.ResetTime | Lake_Shore_335_Temperature_Monitoring.py:793-812 | new start time, empty histories and panels; run state, logging, prev and rates untouched |
| Monitoring.Lakeshore335App.SetFrequency | Lake_Shore_335_Temperature_Monitoring.py:720-729 | accepted iff the entry parses and is in [0.1, 10]; otherwise the interval is unchanged; it may change the interval and nothing else |
| Monitoring.Lakeshore335App.SetTimeRange | Lake_Shore_335_Temperature_Monitoring.py:752-761 | accepted iff the entry parses and is positive; otherwise unchanged; it may change the time range and nothing else |
| Monitoring.Lakeshore335App.SetYScaleA | Lake_Shore_335_Temperature_Monitoring.py:763-774 | both bounds change iff both parse and lower < upper; otherwise neither changes; nothing else can change |
| Monitoring.Lakeshore335App.SetYScaleDiff | Lake_Shore_335_Temperature_Monitoring.py:776-787 | as for the temperature scale, on the \|A − B\| scale only |
| Monitoring.Lakeshore335App.SetYScaleFirstDerivative | Lake_Shore_335_Temperature_Monitoring.py:691-704 | as for the temperature scale, on the first-difference scale only |
| Monitoring.Lakeshore335App.SetYScaleSecondDerivative | Lake_Shore_335_Temperature_Monitoring.py:706-718 | as for the temperature scale, on the second-difference scale only |
| MonitoringV28.Lakeshore335App.constructor | Read_Temperature_from_Lake_Shore_335_with_GUI_with_csv_V28.py:12-52 | the defaults (y scale for \|A − B\| is 0..4), and one connection attempt made while building, through `ConnectToInstrument`; no file call made yet |
| MonitoringV28.Lakeshore335App.Tick | Read_Temperature_from_Lake_Shore_335_with_GUI_with_csv_V28.py:190-266 | a failed read changes no data or file; a successful one appends one entry to each history, updates prev and rates and logs the row; it reschedules iff running; it makes exactly the 0/1/2 instrument queries of the read and one file write iff the read answers while logging |
| MonitoringV28.Lakeshore335App.Record | Read_Temperature_from_Lake_Shore_335_with_GUI_with_csv_V28.py:203-232 | as in the monitoring script, with the 100 000-entry bound |
| MonitoringV28.Lakeshore335App.LogReading | Read_Temperature_from_Lake_Shore_335_with_GUI_with_csv_V28.py:250-258 | when logging, exactly the row is appended with one file call, or logging ends if the write raises; when not logging, no file call |
| MonitoringV28.Lakeshore335App.ConnectToInstrument | Read_Temperature_from_Lake_Shore_335_with_GUI_with_csv_V28.py:169-178 | connected iff the open succeeds |
| MonitoringV28.Lakeshore335App.ToggleReading | Read_Temperature_from_Lake_Shore_335_with_GUI_with_csv_V28.py:269-278 | the run flag is negated, so two toggles restore it; the connection is untouched; entering running resets the time base and histories and runs a tick, at its own later clock read, whose reading, rates, CSV row and calls are stated (`FirstTick`); stopping makes no call and changes no data or file |
| MonitoringV28.Lakeshore335App.BeginRun | Read_Temperature_from_Lake_Shore_335_with_GUI_with_csv_V28.py:272-278 | start time = `now`, cleared histories, then one entry or none, at elapsed time `tickNow − now`; the reading becomes the previous reading, its rate is taken against the last one before the start, and its CSV row is logged as in a tick; the instrument gets the tick's 0/1/2 queries and nothing else |
| MonitoringV28.Lakeshore335App.ToggleCsvLogging | Read_Temperature_from_Lake_Shore_335_with_GUI_with_csv_V28.py:291-308 | as in the monitoring script, file calls and the open-but-no-header case included |
| MonitoringV28.Lakeshore335App.ResetTime | Read_Temperature_from_Lake_Shore_335_with_GUI_with_csv_V28.py:374-379 | new start time and empty histories; run state, prev and rates untouched |
| MonitoringV28.Lakeshore335App.SetFrequency | Read_Temperature_from_Lake_Shore_335_with_GUI_with_csv_V28.py:280-289 | accepted iff the entry parses and is in [0.1, 10]; otherwise unchanged; nothing else can change |
| MonitoringV28.Lakeshore335App.SetTimeRange | Read_Temperature_from_Lake_Shore_335_with_GUI_with_csv_V28.py:310-319 | accepted iff the entry parses and is positive; nothing else can change, the run flag included |
| MonitoringV28.Lakeshore335App.SetYScaleA | Read_Temperature_from_Lake_Shore_335_with_GUI_with_csv_V28.py:321-332 | both bounds change iff both parse and lower < upper; nothing else can change |
| MonitoringV28.Lakeshore335App.SetYScaleDiff | Read_Temperature_from_Lake_Shore_335_with_GUI_with_csv_V28.py:334-345 | both bounds change iff both parse and lower < upper; nothing else can change |

## Left out

- Widgets, labels, option menus, popup plots, legends, line visibility, axis limits and canvas redraws are not modelled. They only display data. The derivative plot lines are kept because they are the only output of the difference series.
- pyvisa is not modelled. It becomes the abstract `Instrument.Device`. Command text, the GPIB address and the timeout setting are not part of it.
- Each exception the scripts catch is a faulting call. The heater `connect` catches only `VisaIOError`, and the model treats every open or query failure as that error.
- The heater `close` does not catch errors. The model counts the call but does not propagate a raise.
- `root.after` timers and the power polling loop are not modelled. One tick is one method call that returns whether the next one is scheduled. Overlapping tick chains, such as a quick stop and restart in the earlier variant, are not modelled.
- `time.time()` is a parameter; each read of it is a parameter of its own (the start of a run reads it once for the time base and once more in its first tick). The `round(…, 4)` of the elapsed time is not modelled. `Monitoring.Lakeshore335App.Tick` and `MonitoringV28.Lakeshore335App.Tick` state their result in terms of the unrounded time.
- The f-string formatting of displays and CSV cells is not modelled. `Telemetry.RowOf` keeps the unformatted numbers.
- `float(str)` is not modelled: an entry is a parameter of type `Option<real>`.
- IEEE floating point is not modelled. All arithmetic is on `real`, so there is no NaN, infinity or rounding.
- Derivatives.FirstDerivative: its contract states the length and the leading 0 only. The element formula is its definition, and its meaning is stated by `IntegralOfFirstDerivative` and `RateIsSixtyTimesSlope`.
- Derivatives.SecondDerivative: its contract states the length and the leading zeros only. The element formula is its definition, and `SecondIsSlopeOfFirst` relates it to the first differences.
- The CSV file's own close failures and the `if self.csv_file` checks are not modelled. Logging is on only while the file is open.
- `Check_GRIB_Hardware_with_GUI_V3.py`, `Run_All.py` and `Run_All_Scripts.py` are not part of this model. They are a VISA resource scan shown in a list box and two process launchers.

## Findings

| source | as written | input that shows it | evidently intended | confidence | as-written member | corrected member |
|---|---|---|---|---|---|---|
| Lake_Shore_335_Temperature_Monitoring.py:805-808 | `reset_time` clears the first-difference trace `line_deriv_a_neg` twice and never clears `line_deriv_b_neg` | Reset while channel B is cooling. For example, B readings of 300 K and then 299 K one second apart give the B first-difference series [0, −1]. Its negative trace [None, −1.0] survives the reset until two new samples redraw the panel | all four first-difference traces emptied, as is done for the second-difference traces at 809-812 | high; not executed | Monitoring.ResetKeepsCoolingTrace | Monitoring.Cleared, used by Monitoring.Lakeshore335App.ResetTime |
