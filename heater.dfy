/**
 * The heater control script: a controller object that holds the heater configuration and
 * sends it to one of the two heater outputs of the instrument, connecting on demand.
 */
module Heater {

  import opened Wrappers
  import opened Instrument

  /** The P, I and D gains. */
  datatype Gains = Gains(p: real, i: real, d: real)

  /** The reading shown by the power display. */
  datatype Power = NotAvailable | ReadError | Watts(watts: real)

  /**
   * What a user action ended with: no instrument (connection failed or, for stop, none
   * held), an entry that does not parse, every write accepted, or write number `step` of
   * the action raised (the error dialog).
   */
  datatype Outcome = NotConnected | InvalidInput | Done | Failed(step: nat)

  /** The RANGE code of a range name; unrecognised names fall back to Low. */
  function RangeCode(name: string): (code: int)
    ensures 1 <= code <= 3
    ensures code == 2 <==> name == "Med"
    ensures code == 3 <==> name == "High"
    ensures code == 1 <==> name != "Med" && name != "High"
  {
    if name == "Low" then 1
    else if name == "Med" then 2
    else if name == "High" then 3
    else 1
  }

  /** The wattage ceiling of a range name, in W; unrecognised names fall back to Low. */
  function Ceiling(name: string): (w: real)
  {
    if name == "Low" then 0.25
    else if name == "Med" then 2.5
    else if name == "High" then 25.0
    else 0.25
  }

  /** The ceiling of a RANGE code: each step up is ten times the power. */
  function CodeCeiling(code: int): (w: real)
    requires 1 <= code <= 3
    ensures w == 0.25 || w == 2.5 || w == 25.0
  {
    if code == 1 then 0.25 else if code == 2 then 2.5 else 25.0
  }

  /**
   * The two calibration tables agree: every name, including an unrecognised one, gets the
   * ceiling of the code it is sent as, and each range is ten times the one below.
   */
  lemma TablesAgree(name: string)
    ensures Ceiling(name) == CodeCeiling(RangeCode(name))
    ensures Ceiling(name) > 0.0
    ensures forall c :: 1 <= c < 3 ==> CodeCeiling(c + 1) == 10.0 * CodeCeiling(c)
  {
  }

  /** Heater output in watts from the raw percentage and the range name. */
  function OutputWatts(raw: real, name: string): (w: real)
  {
    raw / 100.0 * Ceiling(name)
  }

  /** A raw output between 0 % and 100 % gives between 0 W and the range's ceiling. */
  lemma OutputWithinCeiling(raw: real, name: string)
    requires 0.0 <= raw <= 100.0
    ensures 0.0 <= OutputWatts(raw, name) <= Ceiling(name)
    ensures raw == 100.0 ==> OutputWatts(raw, name) == Ceiling(name)
  {
    var f := raw / 100.0;
    assert 0.0 <= f <= 1.0;
    assert f * Ceiling(name) <= 1.0 * Ceiling(name);
  }

  /** The five writes of "start heating" for heater h, in the order they are sent. */
  function StartSequence(h: int, setpoint: real, rampRate: real, range: string, g: Gains): (cmds: seq<Command>)
  {
    [Outmode(h), Setp(h, setpoint), Ramp(h, rampRate), Range(h, RangeCode(range)), Pid(h, g.p, g.i, g.d)]
  }

  /** A command that configures heater output h. */
  predicate AddressedTo(c: Command, h: int)
  {
    !c.ClearStatus? && !c.SystemRemote? && c.heater == h
  }

  /**
   * Start heating sends five commands, all to the selected output: the closed-loop mode
   * first, then setpoint and ramp, then a nonzero range (which switches the output on),
   * then the gains; stop heating sends the one command that switches it off.
   */
  lemma StartSequenceShape(h: int, setpoint: real, rampRate: real, range: string, g: Gains)
    ensures var cmds := StartSequence(h, setpoint, rampRate, range, g);
      && |cmds| == 5
      && (forall k :: 0 <= k < |cmds| ==> AddressedTo(cmds[k], h))
      && cmds[0].Outmode? && cmds[1] == Setp(h, setpoint) && cmds[2] == Ramp(h, rampRate)
      && cmds[3].Range? && cmds[3].code != 0 && cmds[4] == Pid(h, g.p, g.i, g.d)
      && (forall k :: 0 <= k < |cmds| && cmds[k].Range? ==> cmds[k].code != 0)
  {
  }

  class LakeShoreController {
    const dev: Device
    var setpoint: real
    var rampRate: real
    /** Declared by the script and never read. */
    const maxOutputPower: real
    var heaterRange: string
    var selectedHeater: int
    var pidParams: Gains

    /** The heater selector only offers output 1 and output 2. */
    ghost predicate Valid()
      reads this
    {
      selectedHeater == 1 || selectedHeater == 2
    }

    /** The defaults; no instrument is held yet. `faults` describes the instrument's I/O failures. */
    constructor (faults: set<nat>)
      ensures Valid() && fresh(dev)
      ensures !dev.connected && dev.log == [] && dev.calls == 0 && dev.faults == faults
      ensures setpoint == 310.0 && rampRate == 0.1 && maxOutputPower == 25.0
      ensures heaterRange == "Low" && selectedHeater == 2 && pidParams == Gains(50.0, 10.0, 0.0)
    {
      dev := new Device(faults);
      setpoint := 310.0;
      rampRate := 0.1;
      maxOutputPower := 25.0;
      heaterRange := "Low";
      selectedHeater := 2;
      pidParams := Gains(50.0, 10.0, 0.0);
    }

    /** Open the instrument and ask its identity; either failure leaves no instrument. */
    method Connect()
      modifies dev
      ensures dev.connected == (old(dev.calls) !in dev.faults && old(dev.calls) + 1 !in dev.faults)
      ensures dev.calls == if old(dev.calls) in dev.faults then old(dev.calls) + 1 else old(dev.calls) + 2
      ensures dev.log == old(dev.log)
    {
      var isOpen := dev.Open();
      if isOpen {
        var identified := dev.Ask(Identify);
        if !identified {
          dev.Drop();
        }
      }
    }

    /** The gate of the setters and of start heating: connect when no instrument is held. */
    method ConnectIfNeeded()
      modifies dev
      ensures old(dev.connected) ==> dev.connected
      ensures !old(dev.connected) ==>
        dev.connected == (old(dev.calls) !in dev.faults && old(dev.calls) + 1 !in dev.faults)
      ensures dev.calls == old(dev.calls) + PairCalls(old(dev.connected), old(dev.calls), dev.faults)
      ensures dev.log == old(dev.log)
    {
      if !dev.connected {
        Connect();
      }
    }

    /** Store a new setpoint and send it to the selected output. */
    method SetSetpoint(entry: Option<real>) returns (outcome: Outcome)
      requires Valid()
      modifies this, dev
      ensures Valid()
      ensures rampRate == old(rampRate) && heaterRange == old(heaterRange)
      ensures selectedHeater == old(selectedHeater) && pidParams == old(pidParams)
      ensures old(dev.connected) ==> dev.connected
      ensures !old(dev.connected) ==>
        dev.connected == (old(dev.calls) !in dev.faults && old(dev.calls) + 1 !in dev.faults)
      ensures dev.calls == old(dev.calls) + PairCalls(old(dev.connected), old(dev.calls), dev.faults)
        + (if dev.connected && entry.Some? then 1 else 0)
      ensures outcome == NotConnected <==> !dev.connected
      ensures outcome == InvalidInput <==> dev.connected && entry.None?
      ensures outcome.NotConnected? || outcome.InvalidInput? ==>
        setpoint == old(setpoint) && dev.log == old(dev.log)
      ensures outcome.Done? || outcome.Failed? ==> entry.Some? && setpoint == entry.value
      ensures outcome.Done? ==> dev.log == old(dev.log) + [Setp(selectedHeater, entry.value)]
      ensures outcome.Done? ==> dev.calls - 1 !in dev.faults
      ensures outcome.Failed? ==> outcome.step == 1 && dev.log == old(dev.log) && dev.calls - 1 in dev.faults
    {
      ConnectIfNeeded();
      if !dev.connected {
        return NotConnected;
      }
      if entry.None? {
        return InvalidInput;
      }
      setpoint := entry.value;
      var ok := dev.Write(Setp(selectedHeater, setpoint));
      outcome := if ok then Done else Failed(1);
    }

    /** Store a new ramp rate and send it to the selected output. */
    method SetRampRate(entry: Option<real>) returns (outcome: Outcome)
      requires Valid()
      modifies this, dev
      ensures Valid()
      ensures setpoint == old(setpoint) && heaterRange == old(heaterRange)
      ensures selectedHeater == old(selectedHeater) && pidParams == old(pidParams)
      ensures old(dev.connected) ==> dev.connected
      ensures !old(dev.connected) ==>
        dev.connected == (old(dev.calls) !in dev.faults && old(dev.calls) + 1 !in dev.faults)
      ensures dev.calls == old(dev.calls) + PairCalls(old(dev.connected), old(dev.calls), dev.faults)
        + (if dev.connected && entry.Some? then 1 else 0)
      ensures outcome == NotConnected <==> !dev.connected
      ensures outcome == InvalidInput <==> dev.connected && entry.None?
      ensures outcome.NotConnected? || outcome.InvalidInput? ==>
        rampRate == old(rampRate) && dev.log == old(dev.log)
      ensures outcome.Done? || outcome.Failed? ==> entry.Some? && rampRate == entry.value
      ensures outcome.Done? ==> dev.log == old(dev.log) + [Ramp(selectedHeater, entry.value)]
      ensures outcome.Done? ==> dev.calls - 1 !in dev.faults
      ensures outcome.Failed? ==> outcome.step == 1 && dev.log == old(dev.log) && dev.calls - 1 in dev.faults
    {
      ConnectIfNeeded();
      if !dev.connected {
        return NotConnected;
      }
      if entry.None? {
        return InvalidInput;
      }
      rampRate := entry.value;
      var ok := dev.Write(Ramp(selectedHeater, rampRate));
      outcome := if ok then Done else Failed(1);
    }

    /**
     * Send the start sequence. The writes stop at the first one that raises: the writes
     * before it stay applied and none after it is sent.
     */
    method StartHeating() returns (outcome: Outcome)
      requires Valid()
      modifies dev
      ensures !old(dev.connected) ==>
        dev.connected == (old(dev.calls) !in dev.faults && old(dev.calls) + 1 !in dev.faults)
      ensures old(dev.connected) ==> dev.connected
      ensures outcome == NotConnected <==> !dev.connected
      ensures outcome == NotConnected ==> dev.log == old(dev.log)
      ensures dev.calls == old(dev.calls) + PairCalls(old(dev.connected), old(dev.calls), dev.faults)
        + (if outcome.Done? then 5 else if outcome.Failed? then outcome.step else 0)
      ensures outcome.Done? || outcome.Failed? || outcome.NotConnected?
      ensures var cmds := StartSequence(selectedHeater, setpoint, rampRate, heaterRange, pidParams);
        && (outcome.Done? ==>
              dev.log == old(dev.log) + cmds
              && forall j :: dev.calls - 5 <= j < dev.calls ==> j !in dev.faults)
        && (outcome.Failed? ==>
              1 <= outcome.step <= 5
              && dev.log == old(dev.log) + cmds[..outcome.step - 1]
              && dev.calls - 1 in dev.faults
              && forall j :: dev.calls - outcome.step <= j < dev.calls - 1 ==> j !in dev.faults)
    {
      ConnectIfNeeded();
      if !dev.connected {
        return NotConnected;
      }
      var h := selectedHeater;
      var ok := dev.Write(Outmode(h));
      if !ok {
        return Failed(1);
      }
      ok := dev.Write(Setp(h, setpoint));
      if !ok {
        return Failed(2);
      }
      ok := dev.Write(Ramp(h, rampRate));
      if !ok {
        return Failed(3);
      }
      ok := dev.Write(Range(h, RangeCode(heaterRange)));
      if !ok {
        return Failed(4);
      }
      ok := dev.Write(Pid(h, pidParams.p, pidParams.i, pidParams.d));
      if !ok {
        return Failed(5);
      }
      outcome := Done;
    }

    /** Switch the selected output off; without an instrument nothing happens (no connect). */
    method StopHeating() returns (outcome: Outcome)
      modifies dev
      ensures dev.connected == old(dev.connected)
      ensures !old(dev.connected) ==> outcome == NotConnected && dev.calls == old(dev.calls) && dev.log == old(dev.log)
      ensures old(dev.connected) ==> dev.calls == old(dev.calls) + 1
      ensures old(dev.connected) && old(dev.calls) !in dev.faults ==>
        outcome == Done && dev.log == old(dev.log) + [Range(selectedHeater, 0)]
      ensures old(dev.connected) && old(dev.calls) in dev.faults ==>
        outcome == Failed(1) && dev.log == old(dev.log)
    {
      if !dev.connected {
        return NotConnected;
      }
      var ok := dev.Write(Range(selectedHeater, 0));
      outcome := if ok then Done else Failed(1);
    }

    /** Read the selected output's percentage and convert it with the selected range's ceiling. */
    method GetHeaterPower(raw: real) returns (p: Power)
      modifies dev
      ensures dev.connected == old(dev.connected) && dev.log == old(dev.log)
      ensures !old(dev.connected) ==> p == NotAvailable && dev.calls == old(dev.calls)
      ensures old(dev.connected) ==> dev.calls == old(dev.calls) + 1
      ensures old(dev.connected) && old(dev.calls) in dev.faults ==> p == ReadError
      ensures old(dev.connected) && old(dev.calls) !in dev.faults ==> p == Watts(OutputWatts(raw, heaterRange))
    {
      if !dev.connected {
        return NotAvailable;
      }
      var ok := dev.Ask(HeaterOutput(selectedHeater));
      if !ok {
        return ReadError;
      }
      p := Watts(OutputWatts(raw, heaterRange));
    }

    /** Store new gains, then send them to the selected output (without connecting first). */
    method SetPid(p: real, i: real, d: real) returns (outcome: Outcome)
      modifies this, dev
      ensures pidParams == Gains(p, i, d)
      ensures setpoint == old(setpoint) && rampRate == old(rampRate)
      ensures heaterRange == old(heaterRange) && selectedHeater == old(selectedHeater)
      ensures dev.connected == old(dev.connected)
      ensures dev.calls == old(dev.calls) + (if old(dev.connected) then 1 else 0)
      ensures old(dev.Answers(1)) ==> outcome == Done && dev.log == old(dev.log) + [Pid(selectedHeater, p, i, d)]
      ensures !old(dev.Answers(1)) ==> outcome == Failed(1) && dev.log == old(dev.log)
    {
      pidParams := Gains(p, i, d);
      var ok := dev.Write(Pid(selectedHeater, p, i, d));
      outcome := if ok then Done else Failed(1);
    }

    /** The heater selector: "Heater 1" selects output 1, any other choice output 2. */
    method SelectHeater(choice: string)
      modifies this
      ensures Valid()
      ensures selectedHeater == (if choice == "Heater 1" then 1 else 2)
      ensures setpoint == old(setpoint) && rampRate == old(rampRate)
      ensures heaterRange == old(heaterRange) && pidParams == old(pidParams)
    {
      selectedHeater := if choice == "Heater 1" then 1 else 2;
    }

    /** The range selector stores the chosen name; nothing is sent until start heating. */
    method SelectRange(name: string)
      requires Valid()
      modifies this
      ensures Valid()
      ensures heaterRange == name
      ensures setpoint == old(setpoint) && rampRate == old(rampRate)
      ensures selectedHeater == old(selectedHeater) && pidParams == old(pidParams)
    {
      heaterRange := name;
    }

    /** Close the session if one is held; the reference is kept and nothing is written. */
    method Close()
      modifies dev
      ensures dev.connected == old(dev.connected) && dev.log == old(dev.log)
      ensures dev.calls == if old(dev.connected) then old(dev.calls) + 1 else old(dev.calls)
    {
      if dev.connected {
        var _ := dev.Close();
      }
    }
  }
}
