/**
 * The CSV file the monitoring scripts write. Like the instrument, the file is abstract:
 * it records the rows written to it, and the write calls whose number is in `faults` raise.
 */
module CsvLog {

  /** The fixed header row, one title per column. */
  const Header: seq<string> := ["Time (s)", "Channel A (K)", "Channel B (K)", "Abs Diff (K)", "Rate A (K/min)", "Rate B (K/min)"]

  /** A row of the file: the header, or one sample (values unformatted). */
  datatype Row =
    | Titles(names: seq<string>)
    | Data(time: real, a: real, b: real, absDiff: real, rateA: real, rateB: real)

  /** The values of a data row in column order. */
  function Values(r: Row): (vs: seq<real>)
    requires r.Data?
    ensures |vs| == |Header|
    ensures vs[0] == r.time && vs[1] == r.a && vs[2] == r.b
    ensures vs[3] == r.absDiff && vs[4] == r.rateA && vs[5] == r.rateB
  {
    [r.time, r.a, r.b, r.absDiff, r.rateA, r.rateB]
  }

  class CsvFile {
    /** A handle is open on the file. */
    var isOpen: bool
    /** The rows written since the file was last opened. */
    var rows: seq<Row>
    /** Number of open and write calls made so far. */
    var calls: nat
    /** Numbers of the open and write calls that raise. */
    const faults: set<nat>

    constructor (faults: set<nat>)
      ensures !isOpen && rows == [] && calls == 0 && this.faults == faults
    {
      isOpen := false;
      rows := [];
      calls := 0;
      this.faults := faults;
    }

    /** `open(path, mode='w')`: truncates the file. */
    method Open(path: string) returns (ok: bool)
      modifies this
      ensures ok == (old(calls) !in faults)
      ensures calls == old(calls) + 1
      ensures isOpen == (old(isOpen) || ok)
      ensures rows == if ok then [] else old(rows)
    {
      ok := calls !in faults;
      calls := calls + 1;
      if ok {
        isOpen := true;
        rows := [];
      }
    }

    /** `writer.writerow(row)`; fails without a handle. */
    method WriteRow(r: Row) returns (ok: bool)
      modifies this
      ensures ok == (old(isOpen) && old(calls) !in faults)
      ensures calls == if old(isOpen) then old(calls) + 1 else old(calls)
      ensures rows == if ok then old(rows) + [r] else old(rows)
      ensures isOpen == old(isOpen)
    {
      ok := isOpen && calls !in faults;
      if isOpen {
        calls := calls + 1;
      }
      if ok {
        rows := rows + [r];
      }
    }

    /** `file.close()`. */
    method Close()
      modifies this
      ensures !isOpen && rows == old(rows) && calls == old(calls)
    {
      isOpen := false;
    }
  }
}
