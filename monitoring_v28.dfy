/**
 * The earlier monitoring script (version 28): the same dual reading, heating rates, bounded
 * histories and CSV logging, without the difference panels. It connects once, when the
 * window is built; Start/Stop only starts and stops the timer.
 */
module MonitoringV28 {

  import opened Wrappers
  import opened Instrument
  import CsvLog
  import History
  import opened Telemetry

  /** The bound of each history deque. */
  const Capacity: nat := 100000

  class Lakeshore335App {
    const dev: Device
    const csvFile: CsvLog.CsvFile

    var isRunning: bool
    var readingInterval: real
    var csvLogging: bool
    var timeRange: real
    var yScaleA: Scale
    var yScaleDiff: Scale

    var timeHistory: seq<real>
    var tempAHistory: seq<real>
    var tempBHistory: seq<real>
    var absDiffHistory: seq<real>
    var startTime: real

    /** The previous successful reading (prev_time, prev_temp_a, prev_temp_b). */
    var prev: Option<Sample>
    /** heating_rate_a and heating_rate_b. */
    var rates: Rates

    /**
     * The four histories have one entry per successful reading, the difference history is
     * |A - B| index by index, and the previous reading is the newest one in the histories.
     */
    ghost predicate Valid()
      reads this
    {
      && |timeHistory| == |tempAHistory| == |tempBHistory| == |absDiffHistory| <= Capacity
      && Paired(tempAHistory, tempBHistory, absDiffHistory)
      && (|timeHistory| > 0 ==>
            var n := |timeHistory| - 1;
            prev == Some(Sample(timeHistory[n], tempAHistory[n], tempBHistory[n])))
    }

    /** Logging implies an open file. */
    ghost predicate Coupled()
      reads this, csvFile
    {
      csvLogging ==> csvFile.isOpen
    }

    /** The user settings, which only the setters change. */
    ghost function Settings(): (real, real, Scale, Scale)
      reads this
    {
      (readingInterval, timeRange, yScaleA, yScaleDiff)
    }

    /** The four histories. */
    ghost function Histories(): (seq<real>, seq<real>, seq<real>, seq<real>)
      reads this
    {
      (timeHistory, tempAHistory, tempBHistory, absDiffHistory)
    }

    /**
     * What the first tick of a run leaves behind, the histories having just been cleared and
     * the time base reset; `t` is the time the tick reads, relative to the new time base (the
     * queries come first, so it is normally a little above 0). When the reading is `answered`
     * it is the sample at `t`, its rate is taken against the last reading of the previous run (the
     * script never forgets it), and its CSV row is written if logging is on; otherwise the
     * previous reading, the rates and the file are as they were.
     */
    twostate predicate FirstTick(answered: bool, t: real, a: real, b: real)
      reads this, csvFile
    {
      var s := Sample(t, a, b);
      && (answered ==> prev == Some(s) && rates == NextRates(old(prev), s, old(rates)))
      && (!answered ==> prev == old(prev) && rates == old(rates))
      && csvFile.calls == old(csvFile.calls) + (if answered && old(csvLogging) then 1 else 0)
      && (!answered || !old(csvLogging) ==>
            csvLogging == old(csvLogging) && csvFile.isOpen == old(csvFile.isOpen) && csvFile.rows == old(csvFile.rows))
      && (answered && old(csvLogging) && old(csvFile.calls) !in csvFile.faults ==>
            csvLogging && csvFile.rows == old(csvFile.rows) + [RowOf(s, rates)])
      && (answered && old(csvLogging) && old(csvFile.calls) in csvFile.faults ==>
            !csvLogging && !csvFile.isOpen && csvFile.rows == old(csvFile.rows))
    }

    /** The initial state; building the window already connects to the instrument. */
    constructor (now: real, deviceFaults: set<nat>, fileFaults: set<nat>)
      ensures Valid() && Coupled() && fresh(dev) && fresh(csvFile)
      ensures dev.connected == (0 !in deviceFaults) && dev.log == [] && dev.calls == 1
      ensures dev.faults == deviceFaults
      ensures !csvFile.isOpen && csvFile.rows == [] && csvFile.calls == 0 && csvFile.faults == fileFaults
      ensures !isRunning && !csvLogging && readingInterval == 1.0 && timeRange == 300.0
      ensures yScaleA == Scale(0.0, 400.0) && yScaleDiff == Scale(0.0, 4.0)
      ensures Histories() == ([], [], [], []) && startTime == now
      ensures prev == None && rates == Rates(0.0, 0.0)
    {
      dev := new Device(deviceFaults);
      csvFile := new CsvLog.CsvFile(fileFaults);
      isRunning := false;
      readingInterval := 1.0;
      csvLogging := false;
      timeRange := 300.0;
      yScaleA := Scale(0.0, 400.0);
      yScaleDiff := Scale(0.0, 4.0);
      timeHistory, tempAHistory, tempBHistory, absDiffHistory := [], [], [], [];
      startTime := now;
      new;
      ConnectToInstrument();
      prev := None;
      rates := Rates(0.0, 0.0);
    }

    /**
     * One run of `update_display_and_plot` at wall-clock time `now`, the instrument answering
     * `a` and `b`; returns whether the next tick is scheduled. A failed read appends nothing;
     * the timer keeps going while the run is on, connected or not.
     */
    method Tick(now: real, a: real, b: real) returns (rescheduled: bool)
      requires Valid() && Coupled()
      modifies this, dev, csvFile
      ensures Valid() && Coupled()
      ensures isRunning == old(isRunning) && startTime == old(startTime) && Settings() == old(Settings())
      ensures rescheduled == isRunning
      ensures dev.connected == old(dev.connected) && dev.log == old(dev.log)
      ensures dev.calls == old(dev.calls) + (if !old(dev.connected) then 0 else if old(dev.calls) in dev.faults then 1 else 2)
      ensures csvFile.calls == old(csvFile.calls) + (if old(dev.Answers(2)) && old(csvLogging) then 1 else 0)
      ensures !old(dev.Answers(2)) ==>
        && Histories() == old(Histories()) && prev == old(prev) && rates == old(rates)
        && csvLogging == old(csvLogging) && csvFile.isOpen == old(csvFile.isOpen) && csvFile.rows == old(csvFile.rows)
      ensures old(dev.Answers(2)) ==>
        var s := Sample(now - old(startTime), a, b);
        && timeHistory == History.Push(old(timeHistory), s.time, Capacity)
        && tempAHistory == History.Push(old(tempAHistory), a, Capacity)
        && tempBHistory == History.Push(old(tempBHistory), b, Capacity)
        && absDiffHistory == History.Push(old(absDiffHistory), Abs(a - b), Capacity)
        && prev == Some(s)
        && rates == NextRates(old(prev), s, old(rates))
        && (!old(csvLogging) ==> !csvLogging && csvFile.isOpen == old(csvFile.isOpen) && csvFile.rows == old(csvFile.rows))
        && (old(csvLogging) && old(csvFile.calls) !in csvFile.faults ==>
              csvLogging && csvFile.rows == old(csvFile.rows) + [RowOf(s, rates)])
        && (old(csvLogging) && old(csvFile.calls) in csvFile.faults ==>
              !csvLogging && !csvFile.isOpen && csvFile.rows == old(csvFile.rows))
    {
      var reading := GetTemperature(dev, a, b);
      var currentTime := now - startTime;
      if reading.Some? {
        var s := Sample(currentTime, a, b);
        Record(s);
        LogReading(s);
      }
      rescheduled := isRunning;
    }

    /** The bookkeeping of a successful reading: append it to the histories, update the rates. */
    method Record(s: Sample)
      requires Valid()
      modifies this
      ensures Valid()
      ensures timeHistory == History.Push(old(timeHistory), s.time, Capacity)
      ensures tempAHistory == History.Push(old(tempAHistory), s.a, Capacity)
      ensures tempBHistory == History.Push(old(tempBHistory), s.b, Capacity)
      ensures absDiffHistory == History.Push(old(absDiffHistory), Abs(s.a - s.b), Capacity)
      ensures prev == Some(s) && rates == NextRates(old(prev), s, old(rates))
      ensures isRunning == old(isRunning) && csvLogging == old(csvLogging) && startTime == old(startTime)
      ensures Settings() == old(Settings())
    {
      PushPaired(tempAHistory, tempBHistory, absDiffHistory, s.a, s.b, Capacity);
      rates := NextRates(prev, s, rates);
      prev := Some(s);
      tempAHistory := History.Push(tempAHistory, s.a, Capacity);
      tempBHistory := History.Push(tempBHistory, s.b, Capacity);
      absDiffHistory := History.Push(absDiffHistory, Abs(s.a - s.b), Capacity);
      timeHistory := History.Push(timeHistory, s.time, Capacity);
    }

    /** The CSV row of a tick; a failed write switches logging off through the toggle. */
    method LogReading(s: Sample)
      requires Valid() && Coupled()
      modifies this, csvFile
      ensures Valid() && Coupled()
      ensures isRunning == old(isRunning) && startTime == old(startTime) && Settings() == old(Settings())
      ensures Histories() == old(Histories()) && prev == old(prev) && rates == old(rates)
      ensures csvFile.calls == old(csvFile.calls) + (if old(csvLogging) then 1 else 0)
      ensures !old(csvLogging) ==> !csvLogging && csvFile.isOpen == old(csvFile.isOpen) && csvFile.rows == old(csvFile.rows)
      ensures old(csvLogging) && old(csvFile.calls) !in csvFile.faults ==>
        csvLogging && csvFile.rows == old(csvFile.rows) + [RowOf(s, rates)]
      ensures old(csvLogging) && old(csvFile.calls) in csvFile.faults ==>
        !csvLogging && !csvFile.isOpen && csvFile.rows == old(csvFile.rows)
    {
      if csvLogging {
        var written := csvFile.WriteRow(RowOf(s, rates));
        if !written {
          ToggleCsvLogging("");
        }
      }
    }

    /** `connect_to_instrument`: open the instrument. */
    method ConnectToInstrument()
      modifies dev
      ensures dev.connected == (old(dev.calls) !in dev.faults)
      ensures dev.calls == old(dev.calls) + 1 && dev.log == old(dev.log)
    {
      var _ := dev.Open();
    }

    /**
     * Start/Stop: flips the run state. Starting resets the time base and the histories and
     * runs the first tick; stopping only lets the pending tick lapse, the instrument stays open.
     */
    method ToggleReading(now: real, tickNow: real, a: real, b: real) returns (rescheduled: bool)
      requires Valid() && Coupled()
      modifies this, dev, csvFile
      ensures Valid() && Coupled()
      ensures isRunning == !old(isRunning) && Settings() == old(Settings())
      ensures dev.connected == old(dev.connected) && dev.log == old(dev.log)
      ensures old(isRunning) ==>
        && !rescheduled && Histories() == old(Histories()) && startTime == old(startTime)
        && dev.calls == old(dev.calls) && csvLogging == old(csvLogging) && csvFile.rows == old(csvFile.rows)
        && csvFile.isOpen == old(csvFile.isOpen) && csvFile.calls == old(csvFile.calls)
      ensures !old(isRunning) ==> dev.calls == old(dev.calls) + (if !old(dev.connected) then 0 else if old(dev.calls) in dev.faults then 1 else 2)
      ensures !old(isRunning) ==>
        && rescheduled && startTime == now
        && Histories() == if old(dev.Answers(2)) then ([tickNow - now], [a], [b], [Abs(a - b)]) else ([], [], [], [])
      ensures !old(isRunning) ==> FirstTick(old(dev.Answers(2)), tickNow - now, a, b)
      ensures old(isRunning) ==> prev == old(prev) && rates == old(rates)
    {
      isRunning := !isRunning;
      if isRunning {
        rescheduled := BeginRun(now, tickNow, a, b);
      } else {
        rescheduled := false;
      }
    }

    /**
     * A run that has just started: the time base read at `now`, empty histories, then the
     * first tick, whose clock reads `tickNow`.
     */
    method BeginRun(now: real, tickNow: real, a: real, b: real) returns (rescheduled: bool)
      requires Valid() && Coupled() && isRunning
      modifies this, dev, csvFile
      ensures Valid() && Coupled()
      ensures Settings() == old(Settings()) && isRunning && rescheduled
      ensures startTime == now && dev.connected == old(dev.connected) && dev.log == old(dev.log)
      ensures dev.calls == old(dev.calls) + (if !old(dev.connected) then 0 else if old(dev.calls) in dev.faults then 1 else 2)
      ensures Histories() == if old(dev.Answers(2)) then ([tickNow - now], [a], [b], [Abs(a - b)]) else ([], [], [], [])
      ensures FirstTick(old(dev.Answers(2)), tickNow - now, a, b)
    {
      startTime := now;
      tempAHistory, tempBHistory, absDiffHistory, timeHistory := [], [], [], [];
      History.PushEmpty(tickNow - now, Capacity);
      History.PushEmpty(a, Capacity);
      History.PushEmpty(b, Capacity);
      History.PushEmpty(Abs(a - b), Capacity);
      rescheduled := Tick(tickNow, a, b);
    }

    /**
     * Start/Stop Saving: starting asks for a path (empty: cancelled), opens the file, writes
     * the header and only then enables logging; stopping closes the file.
     */
    method ToggleCsvLogging(path: string)
      requires Valid() && Coupled()
      modifies this, csvFile
      ensures Valid() && Coupled()
      ensures isRunning == old(isRunning) && Settings() == old(Settings()) && Histories() == old(Histories())
      ensures startTime == old(startTime) && prev == old(prev) && rates == old(rates)
      ensures old(csvLogging) ==> !csvLogging && !csvFile.isOpen && csvFile.rows == old(csvFile.rows)
      ensures !old(csvLogging) && path == "" ==>
        !csvLogging && csvFile.isOpen == old(csvFile.isOpen) && csvFile.rows == old(csvFile.rows)
      ensures !old(csvLogging) && path != "" ==>
        && (csvLogging <==> old(csvFile.calls) !in csvFile.faults && old(csvFile.calls) + 1 !in csvFile.faults)
        && (csvLogging ==> csvFile.rows == [CsvLog.Titles(CsvLog.Header)])
      ensures csvFile.calls == old(csvFile.calls) + PairCalls(old(csvLogging) || path == "", old(csvFile.calls), csvFile.faults)
      ensures !old(csvLogging) && path != "" && old(csvFile.calls) in csvFile.faults ==>
        csvFile.isOpen == old(csvFile.isOpen) && csvFile.rows == old(csvFile.rows)
      ensures !old(csvLogging) && path != "" && old(csvFile.calls) !in csvFile.faults && old(csvFile.calls) + 1 in csvFile.faults ==>
        csvFile.isOpen && csvFile.rows == []
    {
      if !csvLogging {
        if path != "" {
          var fileOpened := csvFile.Open(path);
          if fileOpened {
            var written := csvFile.WriteRow(CsvLog.Titles(CsvLog.Header));
            if written {
              csvLogging := true;
            }
          }
        }
      } else {
        csvFile.Close();
        csvLogging := false;
      }
    }

    /** Reset Time: a new time base and empty histories; the previous reading and rates stay. */
    method ResetTime(now: real)
      requires Valid() && Coupled()
      modifies this
      ensures Valid() && Coupled()
      ensures startTime == now && Histories() == ([], [], [], [])
      ensures isRunning == old(isRunning) && csvLogging == old(csvLogging) && Settings() == old(Settings())
      ensures prev == old(prev) && rates == old(rates)
    {
      startTime := now;
      timeHistory, tempAHistory, tempBHistory, absDiffHistory := [], [], [], [];
    }

    /** The reading interval accepts a number from 0.1 s to 10 s; anything else is refused. */
    method SetFrequency(entry: Option<real>) returns (accepted: bool)
      requires Valid() && Coupled()
      modifies this`readingInterval
      ensures Valid() && Coupled()
      ensures accepted <==> entry.Some? && IntervalAccepted(entry.value)
      ensures readingInterval == if accepted then entry.value else old(readingInterval)
      ensures (timeRange, yScaleA, yScaleDiff) == old((timeRange, yScaleA, yScaleDiff))
    {
      accepted := entry.Some? && IntervalAccepted(entry.value);
      if accepted {
        readingInterval := entry.value;
      }
    }

    /** The plotted time range accepts any positive number of seconds. */
    method SetTimeRange(entry: Option<real>) returns (accepted: bool)
      requires Valid() && Coupled()
      modifies this`timeRange
      ensures Valid() && Coupled()
      ensures accepted <==> entry.Some? && TimeRangeAccepted(entry.value)
      ensures timeRange == if accepted then entry.value else old(timeRange)
      ensures (readingInterval, yScaleA, yScaleDiff) == old((readingInterval, yScaleA, yScaleDiff))
    {
      accepted := entry.Some? && TimeRangeAccepted(entry.value);
      if accepted {
        timeRange := entry.value;
      }
    }

    /** The y scale of the temperature plot; both bounds change or neither. */
    method SetYScaleA(lower: Option<real>, upper: Option<real>) returns (accepted: bool)
      requires Valid() && Coupled()
      modifies this`yScaleA
      ensures Valid() && Coupled()
      ensures accepted <==> lower.Some? && upper.Some? && lower.value < upper.value
      ensures yScaleA == if accepted then Scale(lower.value, upper.value) else old(yScaleA)
      ensures (readingInterval, timeRange, yScaleDiff) == old((readingInterval, timeRange, yScaleDiff))
    {
      var scale := ScaleEntry(lower, upper);
      accepted := scale.Some?;
      if accepted {
        yScaleA := scale.value;
      }
    }

    /** The y scale of the |A - B| plot; both bounds change or neither. */
    method SetYScaleDiff(lower: Option<real>, upper: Option<real>) returns (accepted: bool)
      requires Valid() && Coupled()
      modifies this`yScaleDiff
      ensures Valid() && Coupled()
      ensures accepted <==> lower.Some? && upper.Some? && lower.value < upper.value
      ensures yScaleDiff == if accepted then Scale(lower.value, upper.value) else old(yScaleDiff)
      ensures (readingInterval, timeRange, yScaleA) == old((readingInterval, timeRange, yScaleA))
    {
      var scale := ScaleEntry(lower, upper);
      accepted := scale.Some?;
      if accepted {
        yScaleDiff := scale.value;
      }
    }
  }
}
