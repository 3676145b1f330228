/**
 * Arithmetic shared by the two monitoring scripts: one dual reading, the heating rate in
 * K/min between consecutive readings, the CSV row of a reading, and the checks the
 * settings fields apply to what the user typed.
 */
module Telemetry {

  import opened Wrappers
  import Instrument
  import CsvLog
  import Derivatives
  import History

  /** One successful dual read: seconds since the start of the run, channel A and B in kelvin. */
  datatype Sample = Sample(time: real, a: real, b: real)

  /** The heating rates shown for channel A and B, in K/min. */
  datatype Rates = Rates(a: real, b: real)

  function Abs(x: real): (r: real)
    ensures r >= 0.0 && (r == x || r == -x)
  {
    if x < 0.0 then -x else x
  }

  /**
   * The heating-rate update of one successful tick. With a previous reading the rate is the
   * change per elapsed second times 60, or exactly 0 when no time has elapsed (or the clock
   * went back); with none the rates shown so far are kept.
   */
  function NextRates(prev: Option<Sample>, s: Sample, rates: Rates): (r: Rates)
  {
    match prev
    case None => rates
    case Some(p) =>
      var dt := s.time - p.time;
      if dt > 0.0 then Rates((s.a - p.a) / dt * 60.0, (s.b - p.b) / dt * 60.0)
      else Rates(0.0, 0.0)
  }

  /**
   * The two cases without a slope: with no previous reading the rates shown so far stay, and
   * when no time has elapsed since the previous reading (or the clock went back) both are 0.
   */
  lemma RateWithoutSlope(p: Sample, s: Sample, rates: Rates)
    ensures NextRates(None, s, rates) == rates
    ensures s.time <= p.time ==> NextRates(Some(p), s, rates) == Rates(0.0, 0.0)
  {
  }

  /** The rates are exact: a rate times the minutes elapsed is the temperature change. */
  lemma RateTimesMinutes(p: Sample, s: Sample, rates: Rates)
    requires s.time > p.time
    ensures NextRates(Some(p), s, rates).a * ((s.time - p.time) / 60.0) == s.a - p.a
    ensures NextRates(Some(p), s, rates).b * ((s.time - p.time) / 60.0) == s.b - p.b
  {
    var dt := s.time - p.time;
    var r := NextRates(Some(p), s, rates);
    assert r.a == (s.a - p.a) / dt * 60.0;
    assert r.a * (dt / 60.0) == ((s.a - p.a) / dt) * dt;
    assert r.b * (dt / 60.0) == ((s.b - p.b) / dt) * dt;
  }

  /** A positive rate means the channel warmed, a negative one that it cooled. */
  lemma RateSign(p: Sample, s: Sample, rates: Rates)
    requires s.time > p.time
    ensures NextRates(Some(p), s, rates).a > 0.0 <==> s.a > p.a
    ensures NextRates(Some(p), s, rates).a < 0.0 <==> s.a < p.a
    ensures NextRates(Some(p), s, rates).b > 0.0 <==> s.b > p.b
    ensures NextRates(Some(p), s, rates).b < 0.0 <==> s.b < p.b
  {
    RateTimesMinutes(p, s, rates);
  }

  /**
   * The heating rate of a tick is 60 times the last element of the first-difference series
   * over the histories, when the previous reading is the one before last in the history.
   */
  lemma RateIsSixtyTimesSlope(t: seq<real>, va: seq<real>, vb: seq<real>, rates: Rates)
    requires 2 <= |t| == |va| == |vb| && Derivatives.DistinctSteps(t)
    requires t[|t| - 1] > t[|t| - 2]
    ensures
      var n := |t|;
      NextRates(Some(Sample(t[n - 2], va[n - 2], vb[n - 2])), Sample(t[n - 1], va[n - 1], vb[n - 1]), rates)
        == Rates(60.0 * Derivatives.FirstDerivative(t, va)[n - 1], 60.0 * Derivatives.FirstDerivative(t, vb)[n - 1])
  {
    var n := |t|;
    var dt := t[n - 1] - t[n - 2];
    assert Derivatives.FirstDerivative(t, va)[n - 1] == (va[n - 1] - va[n - 2]) / dt;
    assert Derivatives.FirstDerivative(t, vb)[n - 1] == (vb[n - 1] - vb[n - 2]) / dt;
  }

  /**
   * `get_temperature`: query channel A, then channel B; the values the instrument answers
   * are `a` and `b`. Without an instrument, or when either query raises, there is no reading.
   */
  method GetTemperature(dev: Instrument.Device, a: real, b: real) returns (r: Option<(real, real)>)
    modifies dev
    ensures r == if old(dev.Answers(2)) then Some((a, b)) else None
    ensures dev.connected == old(dev.connected) && dev.log == old(dev.log)
    ensures dev.calls == old(dev.calls) +
      (if !old(dev.connected) then 0 else if old(dev.calls) in dev.faults then 1 else 2)
  {
    if !dev.connected {
      return None;
    }
    var okA := dev.Ask(Instrument.Kelvin(Instrument.A));
    if !okA {
      return None;
    }
    var okB := dev.Ask(Instrument.Kelvin(Instrument.B));
    r := if okB then Some((a, b)) else None;
  }

  /** The CSV row of a tick: time, A, B, |A - B|, rate A, rate B, in header order. */
  function RowOf(s: Sample, r: Rates): (row: CsvLog.Row)
    ensures row.Data? && CsvLog.Values(row) == [s.time, s.a, s.b, Abs(s.a - s.b), r.a, r.b]
    ensures row.absDiff >= 0.0
  {
    CsvLog.Data(s.time, s.a, s.b, Abs(s.a - s.b), r.a, r.b)
  }

  /** The reading interval field accepts 0.1 s to 10 s inclusive. */
  predicate IntervalAccepted(v: real)
  {
    0.1 <= v <= 10.0
  }

  /** The time-range field accepts any positive number of seconds. */
  predicate TimeRangeAccepted(v: real)
  {
    v > 0.0
  }

  /** A y-scale pair is accepted when the lower bound is strictly below the upper one. */
  predicate ScaleAccepted(lower: real, upper: real)
  {
    lower < upper
  }

  /** A y-axis range, lower and upper bound. */
  datatype Scale = Scale(lower: real, upper: real)

  /**
   * A y-scale form: both entries must parse as numbers and the lower bound must be below the
   * upper one; otherwise the scale is refused as a whole.
   */
  function ScaleEntry(lower: Option<real>, upper: Option<real>): (r: Option<Scale>)
    ensures r.Some? <==> lower.Some? && upper.Some? && lower.value < upper.value
    ensures r.Some? ==> r.value.lower == lower.value && r.value.upper == upper.value
  {
    if lower.Some? && upper.Some? && ScaleAccepted(lower.value, upper.value)
    then Some(Scale(lower.value, upper.value)) else None
  }

  /** Each entry of `ds` is the absolute difference of the entries of `xs` and `ys` at its index. */
  ghost predicate Paired(xs: seq<real>, ys: seq<real>, ds: seq<real>)
  {
    |xs| == |ys| == |ds| && forall i :: 0 <= i < |ds| ==> ds[i] == Abs(xs[i] - ys[i])
  }

  /** Appending a reading to all three bounded histories keeps them paired index by index. */
  lemma PushPaired(xs: seq<real>, ys: seq<real>, ds: seq<real>, a: real, b: real, cap: nat)
    requires 0 < cap && |xs| <= cap && Paired(xs, ys, ds)
    ensures Paired(History.Push(xs, a, cap), History.Push(ys, b, cap), History.Push(ds, Abs(a - b), cap))
  {
    var xs', ys', ds' := History.Push(xs, a, cap), History.Push(ys, b, cap), History.Push(ds, Abs(a - b), cap);
    forall i | 0 <= i < |ds'|
      ensures ds'[i] == Abs(xs'[i] - ys'[i])
    {
      if i < |ds'| - 1 {
        var k := if |ds| < cap then i else i + 1;
        assert xs'[i] == xs[k] && ys'[i] == ys[k] && ds'[i] == ds[k];
      }
    }
  }
}
