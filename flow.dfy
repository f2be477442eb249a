/**
 * Pump records and the flow-rate reading.  Flows are reals in liters per
 * minute; every `Math.random()` draw is a parameter in [0, 1).
 */
module Flow {
  import opened Valves

  datatype PumpStatus = Active | Inactive | Maintenance

  datatype Pump = Pump(id: int, name: string, status: PumpStatus, enabled: bool, flow: real)

  const MinPumpFlow: real := 8.0
  const PumpFlowSpan: real := 10.0

  /** The flow a pump reports when it is started: a random value from 8 up to 18. */
  function PumpFlow(draw: real): (f: real)
    requires 0.0 <= draw < 1.0
    ensures MinPumpFlow <= f < MinPumpFlow + PumpFlowSpan
  {
    draw * PumpFlowSpan + MinPumpFlow
  }

  /** A pump's status agrees with its switch, and a stopped pump has no flow. */
  predicate PumpConsistent(p: Pump)
  {
    && (p.enabled <==> p.status == Active)
    && (p.enabled ==> MinPumpFlow <= p.flow <= MinPumpFlow + PumpFlowSpan)
    && (!p.enabled ==> p.flow == 0.0)
  }

  /** A pump after its switch is set to `enabled`. */
  function Switched(p: Pump, enabled: bool, draw: real): (r: Pump)
    requires 0.0 <= draw < 1.0
    ensures PumpConsistent(r)
    ensures r.id == p.id && r.name == p.name && r.enabled == enabled
    ensures !enabled ==> r.status == Inactive && r.flow == 0.0
  {
    p.(enabled := enabled,
       status := if enabled then Active else Inactive,
       flow := if enabled then PumpFlow(draw) else 0.0)
  }

  /** The summed flow of the enabled pumps. */
  function EnabledFlow(ps: seq<Pump>): real
  {
    if |ps| == 0 then 0.0
    else EnabledFlow(ps[..|ps| - 1]) + (if ps[|ps| - 1].enabled then ps[|ps| - 1].flow else 0.0)
  }

  /** Whether a valve counts towards the average opening. */
  predicate Passing(v: Valve)
  {
    v.open && v.percentage > 0
  }

  /** How many valves are open with a positive percentage. */
  function OpenCount(vs: seq<Valve>): (n: nat)
    ensures n <= |vs|
  {
    if |vs| == 0 then 0
    else OpenCount(vs[..|vs| - 1]) + (if Passing(vs[|vs| - 1]) then 1 else 0)
  }

  /** The summed percentage of those valves. */
  function OpenSum(vs: seq<Valve>): int
  {
    if |vs| == 0 then 0
    else OpenSum(vs[..|vs| - 1]) + (if Passing(vs[|vs| - 1]) then vs[|vs| - 1].percentage else 0)
  }

  /** A flow scaled by the average opening `sum / count` percent; unscaled when no valve is open. */
  function Throttle(total: real, sum: int, count: nat): real
  {
    if count > 0 then total * ((sum as real / count as real) / 100.0) else total
  }

  /** The pump flow scaled by the average opening of the open valves. */
  function ScaledFlow(ps: seq<Pump>, vs: seq<Valve>): real
  {
    Throttle(EnabledFlow(ps), OpenSum(vs), OpenCount(vs))
  }

  /** The random noise added to the reading: from -1 up to 1. */
  function Jitter(draw: real): (j: real)
    ensures 0.0 <= draw < 1.0 ==> -1.0 <= j < 1.0
  {
    (draw - 0.5) * 2.0
  }

  /** `Math.max(0, x)`. */
  function NonNegative(x: real): (r: real)
    ensures r >= 0.0 && r >= x
    ensures r == x || r == 0.0
  {
    if x < 0.0 then 0.0 else x
  }

  /**
   * The peak after a series of readings, in order: each reading that exceeds
   * the peak so far becomes the new peak.
   */
  function PeakAfter(peak: real, readings: seq<real>): (m: real)
    ensures m >= peak
  {
    if |readings| == 0 then peak
    else
      var before := PeakAfter(peak, readings[..|readings| - 1]);
      var last := readings[|readings| - 1];
      if last > before then last else before
  }

  /** The peak after a series is the greatest of the old peak and the readings: at least each, and one of them. */
  lemma {:induction false} PeakAfterIsMax(peak: real, readings: seq<real>)
    ensures forall i :: 0 <= i < |readings| ==> readings[i] <= PeakAfter(peak, readings)
    ensures PeakAfter(peak, readings) == peak || PeakAfter(peak, readings) in readings
  {
    if |readings| > 0 {
      var front := readings[..|readings| - 1];
      PeakAfterIsMax(peak, front);
      assert forall i :: 0 <= i < |front| ==> front[i] == readings[i];
    }
  }

  /** The reading after a series of updates: the last one, or `current` when there was none. */
  function LatestReading(current: real, readings: seq<real>): real
  {
    if |readings| == 0 then current else readings[|readings| - 1]
  }

  /** One more reading raises the peak to it when it exceeds it. */
  lemma PeakAfterStep(peak: real, readings: seq<real>, x: real)
    ensures PeakAfter(peak, readings + [x]) == if x > PeakAfter(peak, readings) then x else PeakAfter(peak, readings)
  {
    assert (readings + [x])[..|readings|] == readings;
  }

  /** Two series of updates in a row raise the peak as the joined series does. */
  lemma {:induction false} PeakAfterConcat(peak: real, a: seq<real>, b: seq<real>)
    ensures PeakAfter(PeakAfter(peak, a), b) == PeakAfter(peak, a + b)
  {
    if |b| > 0 {
      var b' := b[..|b| - 1];
      PeakAfterConcat(peak, a, b');
      assert (a + b)[..|a + b| - 1] == a + b';
      assert (a + b)[|a + b| - 1] == b[|b| - 1];
    } else {
      assert a + b == a;
    }
  }

  /** Two series of updates in a row leave the reading the joined series leaves. */
  lemma LatestReadingConcat(current: real, a: seq<real>, b: seq<real>)
    ensures LatestReading(LatestReading(current, a), b) == LatestReading(current, a + b)
  {
    if |b| == 0 {
      assert a + b == a;
    }
  }

  lemma {:induction false} EnabledFlowNonNegative(ps: seq<Pump>)
    requires forall i :: 0 <= i < |ps| ==> ps[i].flow >= 0.0
    ensures EnabledFlow(ps) >= 0.0
  {
    if |ps| > 0 {
      EnabledFlowNonNegative(ps[..|ps| - 1]);
    }
  }

  /** With every valve at most fully open, the open valves sum to between one and a hundred per open valve. */
  lemma {:induction false} OpenSumBounds(vs: seq<Valve>)
    requires forall i :: 0 <= i < |vs| ==> vs[i].percentage <= 100
    ensures OpenCount(vs) <= OpenSum(vs) <= 100 * OpenCount(vs)
  {
    if |vs| > 0 {
      OpenSumBounds(vs[..|vs| - 1]);
    }
  }

  /** Scaling by an average opening of at most 100% never raises a flow. */
  lemma ThrottleBounds(e: real, sum: real, count: real)
    requires e >= 0.0 && count > 0.0 && 0.0 <= sum <= 100.0 * count
    ensures 0.0 <= e * ((sum / count) / 100.0) <= e
  {
    var ratio := (sum / count) / 100.0;
    assert sum / count <= 100.0;
    assert 0.0 <= ratio <= 1.0;
    assert e * ratio <= e * 1.0;
  }

  /**
   * The valves only ever throttle: with non-negative pump flows and no valve
   * beyond 100%, the scaled flow lies between 0 and the summed pump flow, so
   * the reading never exceeds that sum by more than the jitter.
   */
  lemma ScaledFlowBounds(ps: seq<Pump>, vs: seq<Valve>, draw: real)
    requires forall i :: 0 <= i < |ps| ==> ps[i].flow >= 0.0
    requires forall i :: 0 <= i < |vs| ==> vs[i].percentage <= 100
    requires 0.0 <= draw < 1.0
    ensures 0.0 <= ScaledFlow(ps, vs) <= EnabledFlow(ps)
    ensures NonNegative(ScaledFlow(ps, vs) + Jitter(draw)) < EnabledFlow(ps) + 1.0
  {
    EnabledFlowNonNegative(ps);
    OpenSumBounds(vs);
    if OpenCount(vs) > 0 {
      ThrottleBounds(EnabledFlow(ps), OpenSum(vs) as real, OpenCount(vs) as real);
    }
  }

  /** With no valve passing water the reading is the summed pump flow plus noise. */
  lemma {:induction false} ClosedValvesDoNotScale(ps: seq<Pump>, vs: seq<Valve>)
    requires forall i :: 0 <= i < |vs| ==> !vs[i].open
    ensures OpenCount(vs) == 0
    ensures ScaledFlow(ps, vs) == EnabledFlow(ps)
  {
    if |vs| > 0 {
      ClosedValvesDoNotScale(ps, vs[..|vs| - 1]);
    }
  }

  /** Stopped pumps contribute nothing: with every pump stopped the summed flow is 0. */
  lemma {:induction false} StoppedPumpsGiveNoFlow(ps: seq<Pump>)
    requires forall i :: 0 <= i < |ps| ==> !ps[i].enabled
    ensures EnabledFlow(ps) == 0.0
  {
    if |ps| > 0 {
      StoppedPumpsGiveNoFlow(ps[..|ps| - 1]);
    }
  }
}
