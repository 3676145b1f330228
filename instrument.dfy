/**
 * An abstract Lake Shore 335 on the GPIB bus, as the three scripts see it through pyvisa.
 *
 * The transport itself is not modelled. What is kept is what the scripts can observe:
 * whether the application holds a session, which configuration writes the instrument
 * accepted (in order), and which I/O calls fail. Every call that reaches the transport
 * (opening the resource, a query, a write, closing) is numbered from 0 in the order it is
 * made; the call whose number is in `faults` raises, every other call succeeds.
 */
module Instrument {

  datatype Channel = A | B

  /** The writes the scripts issue (the text formatting of the numbers is not modelled). */
  datatype Command =
    | Outmode(heater: int)                      // OUTMODE h,1,A  (closed loop on sensor A)
    | Setp(heater: int, kelvin: real)           // SETP h,v
    | Ramp(heater: int, rate: real)             // RAMP h,1,rate
    | Range(heater: int, code: int)             // RANGE h,code  (0 = off)
    | Pid(heater: int, p: real, i: real, d: real)  // PID h,P,I,D
    | ClearStatus                               // *CLS
    | SystemRemote                              // SYST:REM

  /** The queries the scripts issue; the answers are supplied by the caller of the model. */
  datatype Query = Identify | Kelvin(channel: Channel) | HeaterOutput(heater: int)

  /**
   * The I/O calls of a pair of steps in which the second is tried only if the first goes
   * through (opening and then identifying the instrument, opening a file and then writing its
   * header), `k` being the number of the first call: none when the pair is skipped, one when
   * the first call raises, two otherwise.
   */
  function PairCalls(skip: bool, k: nat, faults: set<nat>): (n: nat)
    ensures n <= 2 && (n == 0 <==> skip) && (n == 1 <==> !skip && k in faults)
  {
    if skip then 0 else if k in faults then 1 else 2
  }

  class Device {
    /** The application holds a session (the scripts' `inst` / `instrument` is not None). */
    var connected: bool
    /** Every write the instrument accepted, oldest first. */
    var log: seq<Command>
    /** Number of I/O calls made so far; also the number of the next call. */
    var calls: nat
    /** Numbers of the I/O calls that raise. */
    const faults: set<nat>

    constructor (faults: set<nat>)
      ensures !connected && log == [] && calls == 0 && this.faults == faults
    {
      connected := false;
      log := [];
      calls := 0;
      this.faults := faults;
    }

    /** The next `n` I/O calls all go through on the current session. */
    predicate Answers(n: nat)
      reads this
    {
      connected && forall j :: calls <= j < calls + n ==> j !in faults
    }

    /** `rm.open_resource(address)`: on success the application holds the new session, on failure none. */
    method Open() returns (ok: bool)
      modifies this
      ensures ok == (old(calls) !in faults)
      ensures connected == ok && calls == old(calls) + 1 && log == old(log)
    {
      ok := calls !in faults;
      connected := ok;
      calls := calls + 1;
    }

    /** A query on the session. Without a session nothing reaches the bus and the call fails. */
    method Ask(q: Query) returns (ok: bool)
      modifies this
      ensures ok == old(Answers(1))
      ensures calls == if old(connected) then old(calls) + 1 else old(calls)
      ensures connected == old(connected) && log == old(log)
    {
      ok := Answers(1);
      if connected {
        calls := calls + 1;
      }
    }

    /** A write on the session; an accepted write is appended to `log`. */
    method Write(c: Command) returns (ok: bool)
      modifies this
      ensures ok == old(Answers(1))
      ensures calls == if old(connected) then old(calls) + 1 else old(calls)
      ensures log == if ok then old(log) + [c] else old(log)
      ensures connected == old(connected)
    {
      ok := Answers(1);
      if connected {
        calls := calls + 1;
      }
      if ok {
        log := log + [c];
      }
    }

    /** `session.close()`: an I/O call like the others; it issues no command. */
    method Close() returns (ok: bool)
      modifies this
      ensures ok == old(Answers(1))
      ensures calls == if old(connected) then old(calls) + 1 else old(calls)
      ensures connected == old(connected) && log == old(log)
    {
      ok := Answers(1);
      if connected {
        calls := calls + 1;
      }
    }

    /** The application forgets its session (assigns None); no I/O. */
    method Drop()
      modifies this
      ensures !connected && calls == old(calls) && log == old(log)
    {
      connected := false;
    }
  }
}
