/**
 * The temperature monitoring script: reads both channels on a timer, keeps bounded
 * histories, derives heating rates and the first and second difference traces, and
 * optionally logs every reading to a CSV file. Starting a run connects to the instrument;
 * stopping it disconnects.
 */
module Monitoring {

  import opened Wrappers
  import opened Instrument
  import CsvLog
  import History
  import opened Telemetry
  import opened Derivatives

  /** The bound of each history deque. */
  const Capacity: nat := 45000000

  /**
   * The y data of the four traces of a derivative panel: the non-negative and the negative
   * values of channel A, then of channel B.
   */
  datatype Panel = Panel(aPos: seq<Option<real>>, aNeg: seq<Option<real>>,
                         bPos: seq<Option<real>>, bNeg: seq<Option<real>>)

  const EmptyPanel: Panel := Panel([], [], [], [])

  /** The traces of a panel drawn from the series of channel A and of channel B. */
  function PanelOf(da: seq<real>, db: seq<real>): (p: Panel)
    ensures Complementary(p.aPos, p.aNeg) && Merge(p.aPos, p.aNeg) == da
    ensures Complementary(p.bPos, p.bNeg) && Merge(p.bPos, p.bNeg) == db
  {
    MergeSplit(da);
    MergeSplit(db);
    Panel(Positive(da), Negative(da), Positive(db), Negative(db))
  }

  /**
   * What `reset_time` does to a panel's traces as written: it empties the non-negative and
   * the negative trace of channel A, the non-negative trace of channel B, and then the
   * negative trace of channel A a second time.
   */
  function ClearedAsWritten(p: Panel): (c: Panel)
  {
    var p1 := p.(aPos := []);
    var p2 := p1.(aNeg := []);
    var p3 := p2.(bPos := []);
    p3.(aNeg := [])
  }

  /** As written, a cooling channel B keeps its negative first-difference trace after a reset. */
  lemma ResetKeepsCoolingTrace()
    ensures var p := PanelOf([0.0, 0.0], [0.0, -1.0]);
      ClearedAsWritten(p).bNeg == [None, Some(-1.0)] && ClearedAsWritten(p) != EmptyPanel
  {
    var p := PanelOf([0.0, 0.0], [0.0, -1.0]);
    assert p.bNeg == Negative([0.0, -1.0]);
    assert p.bNeg[0] == None && p.bNeg[1] == Some(-1.0);
  }

  /** The traces after a reset, as intended: all four emptied, in every panel state. */
  function Cleared(p: Panel): (c: Panel)
    ensures c == EmptyPanel
  {
    ClearedAsWritten(p).(bNeg := [])
  }

  class Lakeshore335App {
    const dev: Device
    const csvFile: CsvLog.CsvFile

    var isRunning: bool
    var readingInterval: real
    var csvLogging: bool
    var timeRange: real
    var yScaleA: Scale
    var yScaleDiff: Scale
    var yScaleFirstDerivative: Scale
    var yScaleSecondDerivative: Scale

    var timeHistory: seq<real>
    var tempAHistory: seq<real>
    var tempBHistory: seq<real>
    var absDiffHistory: seq<real>
    var startTime: real

    /** The previous successful reading (the script's prev_time, prev_temp_a, prev_temp_b). */
    var prev: Option<Sample>
    /** The script's heating_rate_a and heating_rate_b. */
    var rates: Rates

    /** Data of the first- and second-difference plot lines. */
    var firstPanel: Panel
    var secondPanel: Panel

    /**
     * The four histories have one entry per successful reading, the difference history is
     * |A - B| index by index, and the previous reading is the newest one in the histories.
     */
    ghost predicate Valid()
      reads this
    {
      && |timeHistory| == |tempAHistory| == |tempBHistory| == |absDiffHistory| <= Capacity
      && Paired(tempAHistory, tempBHistory, absDiffHistory)
      && (|timeHistory| > 0 ==>
            var n := |timeHistory| - 1;
            prev == Some(Sample(timeHistory[n], tempAHistory[n], tempBHistory[n])))
    }

    /** The run state agrees with the instrument, and logging implies an open file. */
    ghost predicate Coupled()
      reads this, dev, csvFile
    {
      isRunning == dev.connected && (csvLogging ==> csvFile.isOpen)
    }

    /** The user settings, which only the setters change. */
    ghost function Settings(): (real, real, Scale, Scale, Scale, Scale)
      reads this
    {
      (readingInterval, timeRange, yScaleA, yScaleDiff, yScaleFirstDerivative, yScaleSecondDerivative)
    }

    /** The four histories. */
    ghost function Histories(): (seq<real>, seq<real>, seq<real>, seq<real>)
      reads this
    {
      (timeHistory, tempAHistory, tempBHistory, absDiffHistory)
    }

    /** The derivative series cannot be computed: two consecutive timestamps are equal. */
    ghost predicate DerivativeFault()
      reads this
    {
      |timeHistory| >= 2 && !DistinctSteps(timeHistory)
    }

    /**
     * What the first tick of a run leaves behind, the histories having just been cleared and
     * the time base reset; `t` is the time the tick reads, relative to the new time base (the
     * queries come first, so it is normally a little above 0). When the reading is `answered`
     * it is the sample at `t`, its rate is taken against the last reading of the previous run (the
     * script never forgets it), and its CSV row is written if logging is on; otherwise the
     * previous reading, the rates and the file are as they were. The panels keep their traces:
     * a single sample redraws neither.
     */
    twostate predicate FirstTick(answered: bool, t: real, a: real, b: real)
      reads this, csvFile
    {
      var s := Sample(t, a, b);
      && firstPanel == old(firstPanel) && secondPanel == old(secondPanel)
      && (answered ==> prev == Some(s) && rates == NextRates(old(prev), s, old(rates)))
      && (!answered ==> prev == old(prev) && rates == old(rates))
      && csvFile.calls == old(csvFile.calls) + (if answered && old(csvLogging) then 1 else 0)
      && (!answered || !old(csvLogging) ==>
            csvLogging == old(csvLogging) && csvFile.isOpen == old(csvFile.isOpen) && csvFile.rows == old(csvFile.rows))
      && (answered && old(csvLogging) && old(csvFile.calls) !in csvFile.faults ==>
            csvLogging && csvFile.rows == old(csvFile.rows) + [RowOf(s, rates)])
      && (answered && old(csvLogging) && old(csvFile.calls) in csvFile.faults ==>
            !csvLogging && !csvFile.isOpen && csvFile.rows == old(csvFile.rows))
    }

    /** The initial state; the script does not connect until a run is started. */
    constructor (now: real, deviceFaults: set<nat>, fileFaults: set<nat>)
      ensures Valid() && Coupled() && fresh(dev) && fresh(csvFile)
      ensures !dev.connected && dev.log == [] && dev.calls == 0 && dev.faults == deviceFaults
      ensures !csvFile.isOpen && csvFile.rows == [] && csvFile.calls == 0 && csvFile.faults == fileFaults
      ensures !isRunning && !csvLogging && readingInterval == 1.0 && timeRange == 300.0
      ensures firstPanel == EmptyPanel && secondPanel == EmptyPanel
      ensures yScaleA == Scale(0.0, 400.0) && yScaleDiff == Scale(2.0, 4.0)
      ensures yScaleFirstDerivative == Scale(-1.0, 1.0) && yScaleSecondDerivative == Scale(-1.0, 1.0)
      ensures Histories() == ([], [], [], []) && startTime == now
      ensures prev == None && rates == Rates(0.0, 0.0)
    {
      dev := new Device(deviceFaults);
      csvFile := new CsvLog.CsvFile(fileFaults);
      isRunning := false;
      readingInterval := 1.0;
      csvLogging := false;
      timeRange := 300.0;
      yScaleA := Scale(0.0, 400.0);
      yScaleDiff := Scale(2.0, 4.0);
      yScaleFirstDerivative := Scale(-1.0, 1.0);
      yScaleSecondDerivative := Scale(-1.0, 1.0);
      timeHistory, tempAHistory, tempBHistory, absDiffHistory := [], [], [], [];
      startTime := now;
      prev := None;
      rates := Rates(0.0, 0.0);
      firstPanel, secondPanel := EmptyPanel, EmptyPanel;
    }

    /**
     * One run of `update_display_and_plot` at wall-clock time `now`, the instrument answering
     * `a` and `b`. Returns whether the next tick is scheduled. A failed read appends nothing.
     * When two consecutive timestamps in the history are equal the difference series divide
     * by zero: the tick ends there, after the histories and rates were updated, and is not
     * rescheduled.
     */
    method Tick(now: real, a: real, b: real) returns (rescheduled: bool)
      requires Valid() && Coupled()
      modifies this, dev, csvFile
      ensures Valid() && Coupled()
      ensures isRunning == old(isRunning) && startTime == old(startTime) && Settings() == old(Settings())
      ensures dev.connected == old(dev.connected) && dev.log == old(dev.log)
      ensures dev.calls == old(dev.calls) + (if !old(dev.connected) then 0 else if old(dev.calls) in dev.faults then 1 else 2)
      ensures csvFile.calls == old(csvFile.calls) + (if old(dev.Answers(2)) && !DerivativeFault() && old(csvLogging) then 1 else 0)
      ensures !old(dev.Answers(2)) ==>
        && Histories() == old(Histories()) && prev == old(prev) && rates == old(rates)
        && firstPanel == old(firstPanel) && secondPanel == old(secondPanel)
        && csvLogging == old(csvLogging) && csvFile.isOpen == old(csvFile.isOpen) && csvFile.rows == old(csvFile.rows)
        && rescheduled == isRunning
      ensures old(dev.Answers(2)) ==>
        var s := Sample(now - old(startTime), a, b);
        && timeHistory == History.Push(old(timeHistory), s.time, Capacity)
        && tempAHistory == History.Push(old(tempAHistory), a, Capacity)
        && tempBHistory == History.Push(old(tempBHistory), b, Capacity)
        && absDiffHistory == History.Push(old(absDiffHistory), Abs(a - b), Capacity)
        && prev == Some(s)
        && rates == NextRates(old(prev), s, old(rates))
      ensures old(dev.Answers(2)) && DerivativeFault() ==>
        && !rescheduled
        && firstPanel == old(firstPanel) && secondPanel == old(secondPanel)
        && csvLogging == old(csvLogging) && csvFile.isOpen == old(csvFile.isOpen) && csvFile.rows == old(csvFile.rows)
      ensures old(dev.Answers(2)) && !DerivativeFault() ==>
        && rescheduled == isRunning
        && firstPanel == (if |timeHistory| >= 2
                          then PanelOf(FirstDerivative(timeHistory, tempAHistory), FirstDerivative(timeHistory, tempBHistory))
                          else old(firstPanel))
        && secondPanel == (if |timeHistory| >= 3
                           then PanelOf(SecondDerivative(timeHistory, tempAHistory), SecondDerivative(timeHistory, tempBHistory))
                           else old(secondPanel))
        && (!old(csvLogging) ==> !csvLogging && csvFile.isOpen == old(csvFile.isOpen) && csvFile.rows == old(csvFile.rows))
        && (old(csvLogging) && old(csvFile.calls) !in csvFile.faults ==>
              csvLogging && csvFile.rows == old(csvFile.rows) + [RowOf(Sample(now - old(startTime), a, b), rates)])
        && (old(csvLogging) && old(csvFile.calls) in csvFile.faults ==>
              !csvLogging && !csvFile.isOpen && csvFile.rows == old(csvFile.rows))
    {
      var reading := GetTemperature(dev, a, b);
      var currentTime := now - startTime;
      if reading.Some? {
        var s := Sample(currentTime, a, b);
        Record(s);
        var computed := Redraw();
        if !computed {
          return false;
        }
        LogReading(s);
      }
      rescheduled := isRunning;
    }

    /** The bookkeeping of a successful reading: append it to the histories, update the rates. */
    method Record(s: Sample)
      requires Valid()
      modifies this
      ensures Valid()
      ensures timeHistory == History.Push(old(timeHistory), s.time, Capacity)
      ensures tempAHistory == History.Push(old(tempAHistory), s.a, Capacity)
      ensures tempBHistory == History.Push(old(tempBHistory), s.b, Capacity)
      ensures absDiffHistory == History.Push(old(absDiffHistory), Abs(s.a - s.b), Capacity)
      ensures prev == Some(s) && rates == NextRates(old(prev), s, old(rates))
      ensures isRunning == old(isRunning) && csvLogging == old(csvLogging) && startTime == old(startTime)
      ensures Settings() == old(Settings()) && firstPanel == old(firstPanel) && secondPanel == old(secondPanel)
    {
      PushPaired(tempAHistory, tempBHistory, absDiffHistory, s.a, s.b, Capacity);
      rates := NextRates(prev, s, rates);
      prev := Some(s);
      tempAHistory := History.Push(tempAHistory, s.a, Capacity);
      tempBHistory := History.Push(tempBHistory, s.b, Capacity);
      absDiffHistory := History.Push(absDiffHistory, Abs(s.a - s.b), Capacity);
      timeHistory := History.Push(timeHistory, s.time, Capacity);
    }

    /**
     * The difference panels of a tick, once the reading is recorded. Returns false, leaving
     * the panels alone, when two consecutive timestamps are equal and the series divide by zero.
     */
    method Redraw() returns (computed: bool)
      requires Valid()
      modifies this
      ensures Valid()
      ensures isRunning == old(isRunning) && csvLogging == old(csvLogging) && startTime == old(startTime)
      ensures Settings() == old(Settings()) && Histories() == old(Histories())
      ensures prev == old(prev) && rates == old(rates)
      ensures computed <==> !DerivativeFault()
      ensures !computed ==> firstPanel == old(firstPanel) && secondPanel == old(secondPanel)
      ensures computed ==>
        && firstPanel == (if |timeHistory| >= 2
                          then PanelOf(FirstDerivative(timeHistory, tempAHistory), FirstDerivative(timeHistory, tempBHistory))
                          else old(firstPanel))
        && secondPanel == (if |timeHistory| >= 3
                           then PanelOf(SecondDerivative(timeHistory, tempAHistory), SecondDerivative(timeHistory, tempBHistory))
                           else old(secondPanel))
    {
      if |timeHistory| >= 2 {
        if !DistinctSteps(timeHistory) {
          return false;
        }
        firstPanel := PanelOf(FirstDerivative(timeHistory, tempAHistory), FirstDerivative(timeHistory, tempBHistory));
      }
      if |timeHistory| >= 3 {
        secondPanel := PanelOf(SecondDerivative(timeHistory, tempAHistory), SecondDerivative(timeHistory, tempBHistory));
      }
      computed := true;
    }

    /** The CSV row of a tick; a failed write switches logging off through the toggle. */
    method LogReading(s: Sample)
      requires Valid() && Coupled()
      modifies this, csvFile
      ensures Valid() && Coupled()
      ensures isRunning == old(isRunning) && startTime == old(startTime) && Settings() == old(Settings())
      ensures Histories() == old(Histories()) && prev == old(prev) && rates == old(rates)
      ensures firstPanel == old(firstPanel) && secondPanel == old(secondPanel)
      ensures csvFile.calls == old(csvFile.calls) + (if old(csvLogging) then 1 else 0)
      ensures !old(csvLogging) ==> !csvLogging && csvFile.isOpen == old(csvFile.isOpen) && csvFile.rows == old(csvFile.rows)
      ensures old(csvLogging) && old(csvFile.calls) !in csvFile.faults ==>
        csvLogging && csvFile.rows == old(csvFile.rows) + [RowOf(s, rates)]
      ensures old(csvLogging) && old(csvFile.calls) in csvFile.faults ==>
        !csvLogging && !csvFile.isOpen && csvFile.rows == old(csvFile.rows)
    {
      if csvLogging {
        var written := csvFile.WriteRow(RowOf(s, rates));
        if !written {
          ToggleCsvLogging("");
        }
      }
    }

    /** `connect_to_instrument`: open the instrument (no identity query in this script). */
    method ConnectToInstrument()
      modifies dev
      ensures dev.connected == (old(dev.calls) !in dev.faults)
      ensures dev.calls == old(dev.calls) + 1 && dev.log == old(dev.log)
    {
      var _ := dev.Open();
    }

    /**
     * The Connect/Disconnect button. From stopped: connect, and only if that succeeds enter
     * running with a fresh time base and empty histories, then run the first tick. From
     * running: stop, send *CLS and SYST:REM and close as far as they go, and drop the
     * instrument whatever happened.
     */
    method ToggleReading(now: real, tickNow: real, a: real, b: real) returns (rescheduled: bool)
      requires Valid() && Coupled()
      modifies this, dev, csvFile
      ensures Valid() && Coupled()
      ensures Settings() == old(Settings())
      ensures !old(isRunning) ==> (isRunning <==> old(dev.calls) !in dev.faults)
      ensures dev.calls == old(dev.calls) + StartStopCalls(old(dev.calls), dev.faults)
      ensures !old(isRunning) ==>
        FirstTick(isRunning && old(dev.calls) + 1 !in dev.faults && old(dev.calls) + 2 !in dev.faults, tickNow - now, a, b)
      ensures !old(isRunning) && !isRunning ==>
        && !rescheduled && Histories() == old(Histories()) && startTime == old(startTime)
        && dev.log == old(dev.log) && csvLogging == old(csvLogging) && csvFile.rows == old(csvFile.rows)
      ensures !old(isRunning) && isRunning ==>
        && rescheduled && startTime == now && dev.log == old(dev.log)
        && (if old(dev.calls) + 1 !in dev.faults && old(dev.calls) + 2 !in dev.faults
            then Histories() == ([tickNow - now], [a], [b], [Abs(a - b)])
            else Histories() == ([], [], [], []))
      ensures old(isRunning) ==>
        && !isRunning && !dev.connected && !rescheduled
        && Histories() == old(Histories()) && startTime == old(startTime)
        && prev == old(prev) && rates == old(rates)
        && firstPanel == old(firstPanel) && secondPanel == old(secondPanel)
        && csvLogging == old(csvLogging) && csvFile.rows == old(csvFile.rows)
        && csvFile.isOpen == old(csvFile.isOpen) && csvFile.calls == old(csvFile.calls)
        && dev.log == old(dev.log) + Farewell(old(dev.calls), dev.faults)
    {
      if !isRunning {
        rescheduled := StartReading(now, tickNow, a, b);
      } else {
        StopReading();
        rescheduled := false;
      }
    }

    /** The commands the stop branch gets through, its first I/O call being number `k`. */
    static function Farewell(k: nat, faults: set<nat>): (cmds: seq<Command>)
      ensures cmds <= [ClearStatus, SystemRemote]
      ensures |cmds| == 2 <==> k !in faults && k + 1 !in faults
    {
      if k in faults then []
      else if k + 1 in faults then [ClearStatus]
      else [ClearStatus, SystemRemote]
    }

    /**
     * The I/O calls either branch of the Connect/Disconnect button makes, its first call being
     * number `k`: three calls (open and two queries, or two writes and the close) that stop at
     * the first one that raises.
     */
    static function StartStopCalls(k: nat, faults: set<nat>): (n: nat)
      ensures 1 <= n <= 3
      ensures n == 3 <==> k !in faults && k + 1 !in faults
      ensures k + n - 1 in faults || n == 3
    {
      if k in faults then 1
      else if k + 1 in faults then 2
      else 3
    }

    /** The start branch of the Connect/Disconnect button. */
    method StartReading(now: real, tickNow: real, a: real, b: real) returns (rescheduled: bool)
      requires Valid() && Coupled() && !isRunning
      modifies this, dev, csvFile
      ensures Valid() && Coupled()
      ensures Settings() == old(Settings())
      ensures isRunning <==> old(dev.calls) !in dev.faults
      ensures dev.calls == old(dev.calls) + StartStopCalls(old(dev.calls), dev.faults)
      ensures FirstTick(isRunning && old(dev.calls) + 1 !in dev.faults && old(dev.calls) + 2 !in dev.faults, tickNow - now, a, b)
      ensures !isRunning ==>
        && !rescheduled && Histories() == old(Histories()) && startTime == old(startTime)
        && dev.log == old(dev.log) && csvLogging == old(csvLogging) && csvFile.rows == old(csvFile.rows)
      ensures isRunning ==>
        && rescheduled && startTime == now && dev.log == old(dev.log)
        && (if old(dev.calls) + 1 !in dev.faults && old(dev.calls) + 2 !in dev.faults
            then Histories() == ([tickNow - now], [a], [b], [Abs(a - b)])
            else Histories() == ([], [], [], []))
    {
      ConnectToInstrument();
      if dev.connected {
        isRunning := true;
        rescheduled := BeginRun(now, tickNow, a, b);
      } else {
        rescheduled := false;
      }
    }

    /**
     * A run that has just connected: the time base read at `now`, empty histories, then the
     * first tick, whose clock reads `tickNow`.
     */
    method BeginRun(now: real, tickNow: real, a: real, b: real) returns (rescheduled: bool)
      requires Valid() && Coupled() && isRunning
      modifies this, dev, csvFile
      ensures Valid() && Coupled()
      ensures Settings() == old(Settings()) && isRunning && rescheduled
      ensures startTime == now && dev.log == old(dev.log)
      ensures dev.calls == old(dev.calls) + (if old(dev.calls) in dev.faults then 1 else 2)
      ensures Histories() == if old(dev.Answers(2)) then ([tickNow - now], [a], [b], [Abs(a - b)]) else ([], [], [], [])
      ensures FirstTick(old(dev.Answers(2)), tickNow - now, a, b)
    {
      Restart(now);
      History.PushEmpty(tickNow - now, Capacity);
      History.PushEmpty(a, Capacity);
      History.PushEmpty(b, Capacity);
      History.PushEmpty(Abs(a - b), Capacity);
      rescheduled := Tick(tickNow, a, b);
    }

    /** The time base and history reset that opens a run; nothing else changes. */
    method Restart(now: real)
      requires Valid()
      modifies this
      ensures Valid()
      ensures startTime == now && Histories() == ([], [], [], [])
      ensures isRunning == old(isRunning) && csvLogging == old(csvLogging) && Settings() == old(Settings())
      ensures prev == old(prev) && rates == old(rates)
      ensures firstPanel == old(firstPanel) && secondPanel == old(secondPanel)
    {
      startTime := now;
      tempAHistory, tempBHistory, absDiffHistory, timeHistory := [], [], [], [];
    }

    /** The stop branch of the Connect/Disconnect button. */
    method StopReading()
      requires Valid() && Coupled() && isRunning
      modifies this, dev
      ensures Valid() && Coupled()
      ensures Settings() == old(Settings())
      ensures !isRunning && !dev.connected
      ensures Histories() == old(Histories()) && startTime == old(startTime)
      ensures csvLogging == old(csvLogging) && prev == old(prev) && rates == old(rates)
      ensures firstPanel == old(firstPanel) && secondPanel == old(secondPanel)
      ensures dev.log == old(dev.log) + Farewell(old(dev.calls), dev.faults)
      ensures dev.calls == old(dev.calls) + StartStopCalls(old(dev.calls), dev.faults)
    {
      isRunning := false;
      if dev.connected {
        var ok := dev.Write(ClearStatus);
        if ok {
          ok := dev.Write(SystemRemote);
        }
        if ok {
          ok := dev.Close();
        }
      }
      dev.Drop();
    }

    /**
     * The Start/Stop Saving button. Starting asks for a path (empty: cancelled), opens the
     * file, writes the header and only then enables logging; stopping closes the file and
     * disables logging.
     */
    method ToggleCsvLogging(path: string)
      requires Valid() && Coupled()
      modifies this, csvFile
      ensures Valid() && Coupled()
      ensures isRunning == old(isRunning) && Settings() == old(Settings()) && Histories() == old(Histories())
      ensures startTime == old(startTime) && prev == old(prev) && rates == old(rates)
      ensures firstPanel == old(firstPanel) && secondPanel == old(secondPanel)
      ensures old(csvLogging) ==> !csvLogging && !csvFile.isOpen && csvFile.rows == old(csvFile.rows)
      ensures !old(csvLogging) && path == "" ==>
        !csvLogging && csvFile.isOpen == old(csvFile.isOpen) && csvFile.rows == old(csvFile.rows)
      ensures !old(csvLogging) && path != "" ==>
        && (csvLogging <==> old(csvFile.calls) !in csvFile.faults && old(csvFile.calls) + 1 !in csvFile.faults)
        && (csvLogging ==> csvFile.rows == [CsvLog.Titles(CsvLog.Header)])
      ensures csvFile.calls == old(csvFile.calls) + PairCalls(old(csvLogging) || path == "", old(csvFile.calls), csvFile.faults)
      ensures !old(csvLogging) && path != "" && old(csvFile.calls) in csvFile.faults ==>
        csvFile.isOpen == old(csvFile.isOpen) && csvFile.rows == old(csvFile.rows)
      ensures !old(csvLogging) && path != "" && old(csvFile.calls) !in csvFile.faults && old(csvFile.calls) + 1 in csvFile.faults ==>
        csvFile.isOpen && csvFile.rows == []
    {
      if !csvLogging {
        if path != "" {
          var fileOpened := csvFile.Open(path);
          if fileOpened {
            var written := csvFile.WriteRow(CsvLog.Titles(CsvLog.Header));
            if written {
              csvLogging := true;
            }
          }
        }
      } else {
        csvFile.Close();
        csvLogging := false;
      }
    }

    /**
     * Reset Time: a new time base and empty histories and traces; the run state, the previous
     * reading and the rates are untouched. The first-difference panel goes through the
     * corrected clear (see `ClearedAsWritten`); the second-difference panel is emptied as written.
     */
    method ResetTime(now: real)
      requires Valid() && Coupled()
      modifies this
      ensures Valid() && Coupled()
      ensures startTime == now && Histories() == ([], [], [], [])
      ensures firstPanel == EmptyPanel && secondPanel == EmptyPanel
      ensures isRunning == old(isRunning) && csvLogging == old(csvLogging) && Settings() == old(Settings())
      ensures prev == old(prev) && rates == old(rates)
    {
      var first, second := Cleared(firstPanel), EmptyPanel;
      startTime := now;
      timeHistory, tempAHistory, tempBHistory, absDiffHistory := [], [], [], [];
      firstPanel, secondPanel := first, second;
    }

    /** The reading interval accepts a number from 0.1 s to 10 s; anything else is refused. */
    method SetFrequency(entry: Option<real>) returns (accepted: bool)
      requires Valid() && Coupled()
      modifies this`readingInterval
      ensures Valid() && Coupled()
      ensures accepted <==> entry.Some? && IntervalAccepted(entry.value)
      ensures readingInterval == if accepted then entry.value else old(readingInterval)
      ensures (timeRange, yScaleA, yScaleDiff, yScaleFirstDerivative, yScaleSecondDerivative)
        == old((timeRange, yScaleA, yScaleDiff, yScaleFirstDerivative, yScaleSecondDerivative))
    {
      accepted := entry.Some? && IntervalAccepted(entry.value);
      if accepted {
        readingInterval := entry.value;
      }
    }

    /** The plotted time range accepts any positive number of seconds. */
    method SetTimeRange(entry: Option<real>) returns (accepted: bool)
      requires Valid() && Coupled()
      modifies this`timeRange
      ensures Valid() && Coupled()
      ensures accepted <==> entry.Some? && TimeRangeAccepted(entry.value)
      ensures timeRange == if accepted then entry.value else old(timeRange)
      ensures (readingInterval, yScaleA, yScaleDiff, yScaleFirstDerivative, yScaleSecondDerivative)
        == old((readingInterval, yScaleA, yScaleDiff, yScaleFirstDerivative, yScaleSecondDerivative))
    {
      accepted := entry.Some? && TimeRangeAccepted(entry.value);
      if accepted {
        timeRange := entry.value;
      }
    }

    /** The y scale of the temperature plot; both bounds change or neither. */
    method SetYScaleA(lower: Option<real>, upper: Option<real>) returns (accepted: bool)
      requires Valid() && Coupled()
      modifies this`yScaleA
      ensures Valid() && Coupled()
      ensures accepted <==> lower.Some? && upper.Some? && lower.value < upper.value
      ensures yScaleA == if accepted then Scale(lower.value, upper.value) else old(yScaleA)
      ensures (readingInterval, timeRange, yScaleDiff, yScaleFirstDerivative, yScaleSecondDerivative)
        == old((readingInterval, timeRange, yScaleDiff, yScaleFirstDerivative, yScaleSecondDerivative))
    {
      var scale := ScaleEntry(lower, upper);
      accepted := scale.Some?;
      if accepted {
        yScaleA := scale.value;
      }
    }

    /** The y scale of the |A - B| plot; both bounds change or neither. */
    method SetYScaleDiff(lower: Option<real>, upper: Option<real>) returns (accepted: bool)
      requires Valid() && Coupled()
      modifies this`yScaleDiff
      ensures Valid() && Coupled()
      ensures accepted <==> lower.Some? && upper.Some? && lower.value < upper.value
      ensures yScaleDiff == if accepted then Scale(lower.value, upper.value) else old(yScaleDiff)
      ensures (readingInterval, timeRange, yScaleA, yScaleFirstDerivative, yScaleSecondDerivative)
        == old((readingInterval, timeRange, yScaleA, yScaleFirstDerivative, yScaleSecondDerivative))
    {
      var scale := ScaleEntry(lower, upper);
      accepted := scale.Some?;
      if accepted {
        yScaleDiff := scale.value;
      }
    }

    /** The y scale of the first-difference plot; both bounds change or neither. */
    method SetYScaleFirstDerivative(lower: Option<real>, upper: Option<real>) returns (accepted: bool)
      requires Valid() && Coupled()
      modifies this`yScaleFirstDerivative
      ensures Valid() && Coupled()
      ensures accepted <==> lower.Some? && upper.Some? && lower.value < upper.value
      ensures yScaleFirstDerivative == if accepted then Scale(lower.value, upper.value) else old(yScaleFirstDerivative)
      ensures (readingInterval, timeRange, yScaleA, yScaleDiff, yScaleSecondDerivative)
        == old((readingInterval, timeRange, yScaleA, yScaleDiff, yScaleSecondDerivative))
    {
      var scale := ScaleEntry(lower, upper);
      accepted := scale.Some?;
      if accepted {
        yScaleFirstDerivative := scale.value;
      }
    }

    /** The y scale of the second-difference plot; both bounds change or neither. */
    method SetYScaleSecondDerivative(lower: Option<real>, upper: Option<real>) returns (accepted: bool)
      requires Valid() && Coupled()
      modifies this`yScaleSecondDerivative
      ensures Valid() && Coupled()
      ensures accepted <==> lower.Some? && upper.Some? && lower.value < upper.value
      ensures yScaleSecondDerivative == if accepted then Scale(lower.value, upper.value) else old(yScaleSecondDerivative)
      ensures (readingInterval, timeRange, yScaleA, yScaleDiff, yScaleFirstDerivative)
        == old((readingInterval, timeRange, yScaleA, yScaleDiff, yScaleFirstDerivative))
    {
      var scale := ScaleEntry(lower, upper);
      accepted := scale.Some?;
      if accepted {
        yScaleSecondDerivative := scale.value;
      }
    }
  }
}
