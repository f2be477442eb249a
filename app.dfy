/**
 * The dashboard's state machine: the in-memory application state and the two
 * quick-action flags, with the handlers that change them.  Rendering, toasts,
 * timers and browser storage are not modelled; every `Math.random()` draw is
 * a parameter in [0, 1).
 */
module App {
  import opened Lookup
  import opened Themes
  import opened Tanks
  import opened Valves
  import opened Flow
  import opened Alerts

  const InitialTanks: seq<Tank> := [
    Tank(1, "Main Tank", 6500, 1000, false, false),
    Tank(2, "Underground", 4000, 5000, false, false)
  ]

  const InitialPumps: seq<Pump> := [
    Pump(1, "Main Pump", Active, true, 12.5),
    Pump(2, "Backup Pump", Inactive, false, 0.0),
    Pump(3, "Booster Pump", Maintenance, false, 0.0)
  ]

  const InitialValves: seq<Valve> := [
    Valve("main", "Main Valve", true, 100),
    Valve("garden", "Garden", true, 75),
    Valve("house", "House Supply", true, 100),
    Valve("overflow", "Overflow", false, 0)
  ]

  const InitialAlerts: seq<Alert> := [
    Alert(1, Warning, "Low Water Level", "Main Tank at 65% - Consider filling soon", "10 min ago", false),
    Alert(2, Info, "Maintenance Due", "Booster pump service in 3 days", "2 hours ago", false)
  ]

  /** The pump that emergency stop leaves alone (the one under maintenance). */
  const ExemptPumpId: int := 3

  /** The pumps once the emergency stop has passed over the first `k`: each but the exempt one is switched off. */
  function StopFirst(ps: seq<Pump>, k: int): (r: seq<Pump>)
    ensures |r| == |ps|
    ensures forall i {:trigger r[i]} :: 0 <= i < |ps| ==> r[i].id == ps[i].id && r[i].name == ps[i].name
    ensures forall i {:trigger r[i]} :: 0 <= i < |ps| && i < k && ps[i].id != ExemptPumpId ==>
      !r[i].enabled && r[i].status == Inactive && r[i].flow == 0.0
    ensures forall i {:trigger r[i]} :: 0 <= i < |ps| && !(i < k && ps[i].id != ExemptPumpId) ==> r[i] == ps[i]
  {
    seq(|ps|, i requires 0 <= i < |ps| =>
      if i < k && ps[i].id != ExemptPumpId then Switched(ps[i], false, 0.0) else ps[i])
  }

  /** How many of the first `k` pumps the emergency stop switches off: all but the exempt one. */
  function SwitchedOffCount(ps: seq<Pump>, k: nat): (n: nat)
    requires k <= |ps|
    ensures n <= k
  {
    if k == 0 then 0
    else SwitchedOffCount(ps, k - 1) + (if ps[k - 1].id != ExemptPumpId then 1 else 0)
  }

  /** Without the exempt pump among the first `k`, the pump pass switches off all `k`. */
  lemma {:induction false} NoExemptStopsAll(ps: seq<Pump>, k: nat)
    requires k <= |ps|
    requires forall j :: 0 <= j < k ==> ps[j].id != ExemptPumpId
    ensures SwitchedOffCount(ps, k) == k
  {
    if k > 0 {
      NoExemptStopsAll(ps, k - 1);
    }
  }

  /**
   * With distinct ids and the exempt pump among the first `k`, the pump pass
   * switches off all of them but that one.
   */
  lemma {:induction false} OneExemptStopsAllButOne(ps: seq<Pump>, k: nat, e: nat)
    requires k <= |ps| && e < k && ps[e].id == ExemptPumpId
    requires forall i, j :: 0 <= i < j < k ==> ps[i].id != ps[j].id
    ensures SwitchedOffCount(ps, k) == k - 1
  {
    if e == k - 1 {
      NoExemptStopsAll(ps, k - 1);
    } else {
      OneExemptStopsAllButOne(ps, k - 1, e);
    }
  }

  /**
   * The readings the emergency stop's pump pass produces over the first `k`
   * pumps: every pump it switches off updates the reading, pump `i` with
   * noise `draws[i]`; the exempt pump produces none.
   */
  function StopReadings(ps: seq<Pump>, vs: seq<Valve>, draws: seq<real>, k: nat): (rs: seq<real>)
    requires k <= |ps| && k <= |draws|
    ensures |rs| <= k
    ensures forall j :: 0 <= j < |rs| ==> rs[j] >= 0.0
  {
    if k == 0 then []
    else if ps[k - 1].id != ExemptPumpId then
      StopReadings(ps, vs, draws, k - 1) + [NonNegative(ScaledFlow(StopFirst(ps, k), vs) + Jitter(draws[k - 1]))]
    else
      StopReadings(ps, vs, draws, k - 1)
  }

  /** The pump pass produces exactly one reading for each pump it switches off. */
  lemma {:induction false} StopReadingsCount(ps: seq<Pump>, vs: seq<Valve>, draws: seq<real>, k: nat)
    requires k <= |ps| && k <= |draws|
    ensures |StopReadings(ps, vs, draws, k)| == SwitchedOffCount(ps, k)
  {
    if k > 0 {
      StopReadingsCount(ps, vs, draws, k - 1);
    }
  }

  /**
   * One more step of the pump pass: the pump it reaches is switched off and
   * its flow update adds one reading, unless the pump is exempt.
   */
  lemma StopAdvance(ps: seq<Pump>, vs: seq<Valve>, draws: seq<real>, i: nat, peak0: real, rate0: real,
                    prev: seq<Pump>, prevPeak: real, prevRate: real, cur: seq<Pump>, peak: real, rate: real)
    requires i < |ps| && i < |draws|
    requires prev == StopFirst(ps, i)
    requires prevPeak == PeakAfter(peak0, StopReadings(ps, vs, draws, i))
    requires prevRate == LatestReading(rate0, StopReadings(ps, vs, draws, i))
    requires ps[i].id != ExemptPumpId ==>
      && cur == prev[i := Switched(prev[i], false, 0.0)]
      && rate == NonNegative(ScaledFlow(cur, vs) + Jitter(draws[i]))
      && peak == (if rate > prevPeak then rate else prevPeak)
    requires ps[i].id == ExemptPumpId ==> cur == prev && peak == prevPeak && rate == prevRate
    ensures cur == StopFirst(ps, i + 1)
    ensures peak == PeakAfter(peak0, StopReadings(ps, vs, draws, i + 1))
    ensures rate == LatestReading(rate0, StopReadings(ps, vs, draws, i + 1))
  {
    StopFirstStep(ps, i);
    if ps[i].id != ExemptPumpId {
      PeakAfterStep(peak0, StopReadings(ps, vs, draws, i), rate);
    }
  }

  /** The pump pass reaching one more pump switches it off, unless it is exempt. */
  lemma StopFirstStep(ps: seq<Pump>, i: nat)
    requires i < |ps|
    ensures StopFirst(ps, i + 1) ==
      if ps[i].id != ExemptPumpId then StopFirst(ps, i)[i := Switched(ps[i], false, 0.0)] else StopFirst(ps, i)
  {
    var next, prev := StopFirst(ps, i + 1), StopFirst(ps, i);
    assert forall k :: 0 <= k < |ps| && k != i ==> next[k] == prev[k];
  }

  /** The valves once the emergency stop has closed the first `k`. */
  function CloseFirst(vs: seq<Valve>, k: int): (r: seq<Valve>)
    ensures |r| == |vs|
    ensures forall j {:trigger r[j]} :: 0 <= j < |vs| ==> r[j].id == vs[j].id && r[j].name == vs[j].name
    ensures forall j {:trigger r[j]} :: 0 <= j < |vs| && j < k ==> !r[j].open && r[j].percentage == 0
    ensures forall j {:trigger r[j]} :: 0 <= j < |vs| && j >= k ==> r[j] == vs[j]
  {
    seq(|vs|, j requires 0 <= j < |vs| => if j < k then vs[j].(open := false, percentage := 0) else vs[j])
  }

  /** The valve pass reaching one more valve closes it at 0%. */
  lemma CloseFirstStep(vs: seq<Valve>, j: nat)
    requires j < |vs|
    ensures CloseFirst(vs, j + 1) == CloseFirst(vs, j)[j := vs[j].(open := false, percentage := 0)]
  {
    var next, prev := CloseFirst(vs, j + 1), CloseFirst(vs, j);
    assert forall k :: 0 <= k < |vs| && k != j ==> next[k] == prev[k];
  }

  /** The readings the emergency stop's valve pass produces over the first `k` valves, valve `j` with noise `draws[j]`. */
  function CloseReadings(ps: seq<Pump>, vs: seq<Valve>, draws: seq<real>, k: nat): (rs: seq<real>)
    requires k <= |vs| && k <= |draws|
    ensures |rs| == k
  {
    if k == 0 then []
    else CloseReadings(ps, vs, draws, k - 1) + [NonNegative(ScaledFlow(ps, CloseFirst(vs, k)) + Jitter(draws[k - 1]))]
  }

  /** One more step of the valve pass: the valve it reaches is closed and its flow update adds one reading. */
  lemma CloseAdvance(ps: seq<Pump>, vs: seq<Valve>, draws: seq<real>, j: nat, peak0: real, rate0: real,
                     prev: seq<Valve>, prevPeak: real, prevRate: real, cur: seq<Valve>, peak: real, rate: real)
    requires j < |vs| && j < |draws|
    requires prev == CloseFirst(vs, j)
    requires prevPeak == PeakAfter(peak0, CloseReadings(ps, vs, draws, j))
    requires prevRate == LatestReading(rate0, CloseReadings(ps, vs, draws, j))
    requires cur == prev[j := prev[j].(percentage := 0, open := false)]
    requires rate == NonNegative(ScaledFlow(ps, cur) + Jitter(draws[j]))
    requires peak == (if rate > prevPeak then rate else prevPeak)
    ensures cur == CloseFirst(vs, j + 1)
    ensures peak == PeakAfter(peak0, CloseReadings(ps, vs, draws, j + 1))
    ensures rate == LatestReading(rate0, CloseReadings(ps, vs, draws, j + 1))
  {
    CloseFirstStep(vs, j);
    PeakAfterStep(peak0, CloseReadings(ps, vs, draws, j), rate);
  }

  /**
   * The flow readings of a whole emergency stop that started from pumps `ps`, valves `vs`,
   * peak `peak0` and reading `rate0`: one reading per switched-off pump, then one per closed
   * valve, leaving `peak` and `rate`; the last reading is the pump flow alone.
   */
  ghost predicate StopFlow(ps: seq<Pump>, vs: seq<Valve>, draws: seq<real>,
                           peak0: real, rate0: real, peak: real, rate: real)
    requires |ps| + |vs| <= |draws|
  {
    var n := |ps|;
    var readings := StopReadings(ps, vs, draws[..n], n) + CloseReadings(StopFirst(ps, n), vs, draws[n..], |vs|);
    && peak == PeakAfter(peak0, readings)
    && rate == LatestReading(rate0, readings)
    && (|vs| > 0 ==> rate == NonNegative(EnabledFlow(StopFirst(ps, n)) + Jitter(draws[n + |vs| - 1])))
  }

  /** The pump pass followed by the valve pass gives the readings of the emergency stop. */
  lemma EmergencyFlow(ps: seq<Pump>, vs: seq<Valve>, draws: seq<real>,
                      peak0: real, rate0: real, peak1: real, rate1: real, peak2: real, rate2: real,
                      stopped: seq<Pump>, rest: seq<real>)
    requires |ps| + |vs| <= |draws|
    requires stopped == StopFirst(ps, |ps|) && rest == draws[|ps|..]
    requires peak1 == PeakAfter(peak0, StopReadings(ps, vs, draws[..|ps|], |ps|))
    requires rate1 == LatestReading(rate0, StopReadings(ps, vs, draws[..|ps|], |ps|))
    requires peak2 == PeakAfter(peak1, CloseReadings(stopped, vs, rest, |vs|))
    requires rate2 == LatestReading(rate1, CloseReadings(stopped, vs, rest, |vs|))
    ensures StopFlow(ps, vs, draws, peak0, rate0, peak2, rate2)
  {
    var n := |ps|;
    PeakAfterConcat(peak0, StopReadings(ps, vs, draws[..n], n), CloseReadings(StopFirst(ps, n), vs, draws[n..], |vs|));
    LatestReadingConcat(rate0, StopReadings(ps, vs, draws[..n], n), CloseReadings(StopFirst(ps, n), vs, draws[n..], |vs|));
    ClosedReading(stopped, vs, rest, rate1);
  }

  /** Once every valve is closed nothing throttles: the last reading is the pump flow plus its noise. */
  lemma {:induction false} ClosedReading(ps: seq<Pump>, vs: seq<Valve>, draws: seq<real>, current: real)
    requires |vs| <= |draws|
    ensures |vs| > 0 ==>
      LatestReading(current, CloseReadings(ps, vs, draws, |vs|)) == NonNegative(EnabledFlow(ps) + Jitter(draws[|vs| - 1]))
  {
    ClosedValvesDoNotScale(ps, CloseFirst(vs, |vs|));
  }

  /** Once every valve is closed, each is closed at 0%, so open and percentage agree. */
  lemma AllClosedAgree(vs: seq<Valve>)
    ensures OpenAgrees(CloseFirst(vs, |vs|))
  {
  }

  /** Closing the valve found under the id of valve `j` closes valve `j` alone, as ids are distinct. */
  lemma CloseOnly(prev: seq<Valve>, cur: seq<Valve>, j: nat)
    requires j < |prev| && Distinct(ValveIds(prev)) && |cur| == |prev|
    requires forall i :: 0 <= i < |cur| ==>
      cur[i] == if prev[i].id == prev[j].id then prev[i].(percentage := 0, open := false) else prev[i]
    ensures cur == prev[j := prev[j].(percentage := 0, open := false)]
  {
    forall k | 0 <= k < |cur| && k != j
      ensures cur[k] == prev[k]
    {
      assert ValveIds(prev)[k] != ValveIds(prev)[j];
    }
  }

  class Dashboard {
    var theme: string
    var isAutoMode: bool
    var tanks: seq<Tank>
    var nextTankId: nat
    var pumps: seq<Pump>
    var valves: seq<Valve>
    var flowRate: real
    var flowPeak: real
    var alerts: seq<Alert>
    var isFillingAll: bool
    var isEmptyingAll: bool

    /**
     * The state invariant: levels in range, tank ids distinct and below the
     * next id, the quick-action modes exclusive, a main pump present, every
     * pump consistent, valve and alert ids distinct, and the flow reading
     * non-negative and within its peak.
     */
    ghost predicate Valid()
      reads this
    {
      TanksValid() && ModesExclusive() && PumpsValid() && RecordIdsDistinct() && FlowValid()
    }

    ghost predicate TanksValid()
      reads this`tanks, this`nextTankId
    {
      && (forall i :: 0 <= i < |tanks| ==> 0 <= tanks[i].level <= FullLevel && tanks[i].id < nextTankId)
      && Distinct(TankIds(tanks))
    }

    ghost predicate ModesExclusive()
      reads this`isFillingAll, this`isEmptyingAll
    {
      !(isFillingAll && isEmptyingAll)
    }

    ghost predicate PumpsValid()
      reads this`pumps
    {
      |pumps| > 0 && forall i :: 0 <= i < |pumps| ==> PumpConsistent(pumps[i])
    }

    ghost predicate RecordIdsDistinct()
      reads this`valves, this`alerts
    {
      Distinct(ValveIds(valves)) && Distinct(AlertIds(alerts))
    }

    ghost predicate FlowValid()
      reads this`flowRate, this`flowPeak
    {
      0.0 <= flowRate <= flowPeak
    }

    /** Every valve is open exactly when its percentage is positive. */
    ghost predicate ValvesConsistent()
      reads this`valves
    {
      OpenAgrees(valves)
    }

    /** The reading after one flow update with noise `draw`, and the peak raised to it when exceeded. */
    ghost predicate FlowUpdated(oldPeak: real, draw: real)
      reads this
    {
      && flowRate == NonNegative(ScaledFlow(pumps, valves) + Jitter(draw))
      && flowPeak == (if flowRate > oldPeak then flowRate else oldPeak)
    }

    /** The initial state; `savedTheme` is the stored preference, "" when there is none. */
    constructor (savedTheme: string)
      ensures Valid() && ValvesConsistent()
      ensures theme == (if savedTheme == "" then "system" else savedTheme)
      ensures isAutoMode && !isFillingAll && !isEmptyingAll
      ensures tanks == InitialTanks && nextTankId == 3
      ensures pumps == InitialPumps && valves == InitialValves && alerts == InitialAlerts
      ensures flowRate == 12.5 && flowPeak == 18.2
    {
      theme := if savedTheme == "" then "system" else savedTheme;
      isAutoMode := true;
      tanks := InitialTanks;
      nextTankId := 3;
      pumps := InitialPumps;
      valves := InitialValves;
      flowRate := 12.5;
      flowPeak := 18.2;
      alerts := InitialAlerts;
      isFillingAll := false;
      isEmptyingAll := false;
      assert TankIds(InitialTanks) == [1, 2];
      assert ValveIds(InitialValves) == ["main", "garden", "house", "overflow"];
      assert AlertIds(InitialAlerts) == [1, 2];
    }

    /** The theme button: the next theme of the cycle. */
    method ToggleTheme()
      requires Valid()
      modifies this`theme
      ensures Valid()
      ensures theme == NextTheme(old(theme))
    {
      theme := NextTheme(theme);
    }

    /** The auto/manual button flips the mode. */
    method ToggleAutoMode()
      requires Valid()
      modifies this`isAutoMode
      ensures Valid()
      ensures isAutoMode == !old(isAutoMode)
    {
      isAutoMode := !isAutoMode;
    }

    /** The tank with that id moves by `delta`, clamped to [0, 100%]; nothing else changes. */
    method UpdateTankLevel(id: int, delta: int)
      requires Valid()
      modifies this`tanks
      ensures Valid()
      ensures |tanks| == |old(tanks)|
      ensures forall i :: 0 <= i < |tanks| ==>
        tanks[i] == if old(tanks)[i].id == id
                    then old(tanks)[i].(level := Clamp(old(tanks)[i].level + delta))
                    else old(tanks)[i]
      ensures id !in TankIds(old(tanks)) ==> tanks == old(tanks)
    {
      var found := FirstIndexOf(TankIds(tanks), id);
      if found.Some? {
        var k := found.value;
        tanks := tanks[k := tanks[k].(level := Clamp(tanks[k].level + delta))];
        assert TankIds(tanks) == TankIds(old(tanks));
      }
    }

    /** The fill button of one tank toggles its filling, except on a full tank, which is refused. */
    method FillTank(id: int)
      requires Valid()
      modifies this`tanks
      ensures Valid()
      ensures |tanks| == |old(tanks)|
      ensures forall i :: 0 <= i < |tanks| ==>
        tanks[i] == if old(tanks)[i].id == id && old(tanks)[i].level < FullLevel
                    then old(tanks)[i].(filling := !old(tanks)[i].filling)
                    else old(tanks)[i]
    {
      var found := FirstIndexOf(TankIds(tanks), id);
      if found.None? {
        return;
      }
      var k := found.value;
      if tanks[k].level >= FullLevel {
        return;
      }
      tanks := tanks[k := tanks[k].(filling := !tanks[k].filling)];
      assert TankIds(tanks) == TankIds(old(tanks));
    }

    /** The empty button of one tank toggles its draining, except on an empty tank, which is refused. */
    method EmptyTank(id: int)
      requires Valid()
      modifies this`tanks
      ensures Valid()
      ensures |tanks| == |old(tanks)|
      ensures forall i :: 0 <= i < |tanks| ==>
        tanks[i] == if old(tanks)[i].id == id && old(tanks)[i].level > 0
                    then old(tanks)[i].(draining := !old(tanks)[i].draining)
                    else old(tanks)[i]
    {
      var found := FirstIndexOf(TankIds(tanks), id);
      if found.None? {
        return;
      }
      var k := found.value;
      if tanks[k].level <= 0 {
        return;
      }
      tanks := tanks[k := tanks[k].(draining := !tanks[k].draining)];
      assert TankIds(tanks) == TankIds(old(tanks));
    }

    /**
     * Appends an empty, idle tank under the next id, named "Tank <id>" when no
     * name is given and of 1000 liters when the capacity is 0, then updates
     * the flow reading.
     */
    method AddNewTank(name: string, capacity: int, draw: real)
      requires Valid()
      requires 0.0 <= draw < 1.0
      modifies this`tanks, this`nextTankId, this`flowRate, this`flowPeak
      ensures Valid()
      ensures nextTankId == old(nextTankId) + 1
      ensures tanks == old(tanks) + [NewTank(old(nextTankId), name, capacity)]
      ensures var t := tanks[|tanks| - 1];
        && t.id == old(nextTankId) && t.level == 0 && !t.filling && !t.draining
        && t.name == (if name == "" then DefaultTankName(t.id) else name)
        && t.capacity == (if capacity == 0 then DefaultCapacity else capacity)
      ensures FlowUpdated(old(flowPeak), draw)
    {
      var tankId := nextTankId;
      nextTankId := nextTankId + 1;
      tanks := tanks + [NewTank(tankId, name, capacity)];
      forall i, j | 0 <= i < |tanks| && 0 <= j < |tanks| && i != j
        ensures TankIds(tanks)[i] != TankIds(tanks)[j]
      {
        if i < |old(tanks)| && j < |old(tanks)| {
          assert TankIds(old(tanks))[i] != TankIds(old(tanks))[j];
        }
      }
      UpdateFlowRate(draw);
    }

    /**
     * The confirm button of the add-tank form: the capacity field parsed (or
     * 1000) must lie between 100 and 100000 liters, else nothing changes.
     */
    method ConfirmAddTank(name: string, parsedCapacity: Option<int>, draw: real) returns (added: bool)
      requires Valid()
      requires 0.0 <= draw < 1.0
      modifies this`tanks, this`nextTankId, this`flowRate, this`flowPeak
      ensures Valid()
      ensures added <==> CapacityAccepted(RequestedCapacity(parsedCapacity))
      ensures !added ==> tanks == old(tanks) && nextTankId == old(nextTankId)
                         && flowRate == old(flowRate) && flowPeak == old(flowPeak)
      ensures added ==> tanks == old(tanks) + [NewTank(old(nextTankId), name, RequestedCapacity(parsedCapacity))]
                        && nextTankId == old(nextTankId) + 1
                        && FlowUpdated(old(flowPeak), draw)
    {
      var capacity := RequestedCapacity(parsedCapacity);
      if capacity < MinCapacity || capacity > MaxCapacity {
        return false;
      }
      AddNewTank(name, capacity, draw);
      return true;
    }

    /**
     * Switches the pump at `pumpIndex`: on, it becomes active with a random
     * flow from 8 to 18; off, inactive with no flow.  Then the reading is updated.
     */
    method UpdatePumpState(pumpIndex: nat, enabled: bool, flowDraw: real, jitterDraw: real)
      requires Valid()
      requires pumpIndex < |pumps|
      requires 0.0 <= flowDraw < 1.0 && 0.0 <= jitterDraw < 1.0
      modifies this`pumps, this`flowRate, this`flowPeak
      ensures Valid()
      ensures pumps == old(pumps)[pumpIndex := Switched(old(pumps)[pumpIndex], enabled, flowDraw)]
      ensures !enabled ==> pumps[pumpIndex].flow == 0.0 && pumps[pumpIndex].status == Inactive
      ensures FlowUpdated(old(flowPeak), jitterDraw)
    {
      pumps := pumps[pumpIndex := Switched(pumps[pumpIndex], enabled, flowDraw)];
      UpdateFlowRate(jitterDraw);
    }

    /**
     * The valve with that id takes the given percentage and open flag, then
     * the reading is updated.  The id must exist: the handler reads the
     * matched valve's name unconditionally.
     */
    method UpdateValveState(valveId: string, percentage: int, open: bool, draw: real)
      requires Valid()
      requires valveId in ValveIds(valves)
      requires 0.0 <= draw < 1.0
      modifies this`valves, this`flowRate, this`flowPeak
      ensures Valid()
      ensures |valves| == |old(valves)| && ValveIds(valves) == ValveIds(old(valves))
      ensures forall i :: 0 <= i < |valves| ==>
        valves[i] == if old(valves)[i].id == valveId
                     then old(valves)[i].(percentage := percentage, open := open)
                     else old(valves)[i]
      ensures old(ValvesConsistent()) && (open <==> percentage > 0) ==> ValvesConsistent()
      ensures FlowUpdated(old(flowPeak), draw)
    {
      var k := FirstIndexOf(ValveIds(valves), valveId).value;
      valves := valves[k := valves[k].(percentage := percentage, open := open)];
      assert ValveIds(valves) == ValveIds(old(valves));
      UpdateFlowRate(draw);
    }

    /** A dial step sets the percentage and opens the valve exactly when it is positive. */
    method HandleDialClick(valveId: string, value: int, draw: real)
      requires Valid()
      requires valveId in ValveIds(valves)
      requires 0.0 <= draw < 1.0
      modifies this`valves, this`flowRate, this`flowPeak
      ensures Valid()
      ensures |valves| == |old(valves)|
      ensures forall i :: 0 <= i < |valves| ==>
        valves[i] == if old(valves)[i].id == valveId
                     then old(valves)[i].(percentage := value, open := value > 0)
                     else old(valves)[i]
      ensures old(ValvesConsistent()) ==> ValvesConsistent()
      ensures FlowUpdated(old(flowPeak), draw)
    {
      UpdateValveState(valveId, value, value > 0, draw);
    }

    /** A typed percentage is snapped to the nearest dial step, which the valve takes. */
    method HandleInputChange(valveId: string, value: int, draw: real)
      requires Valid()
      requires valveId in ValveIds(valves)
      requires 0.0 <= draw < 1.0
      modifies this`valves, this`flowRate, this`flowPeak
      ensures Valid()
      ensures |valves| == |old(valves)|
      ensures forall i :: 0 <= i < |valves| ==>
        valves[i] == if old(valves)[i].id == valveId
                     then old(valves)[i].(percentage := NearestStep(value), open := NearestStep(value) > 0)
                     else old(valves)[i]
      ensures forall i :: 0 <= i < |valves| && valves[i].id == valveId ==>
        IsNearestStep(value, valves[i].percentage)
      ensures old(ValvesConsistent()) ==> ValvesConsistent()
      ensures FlowUpdated(old(flowPeak), draw)
    {
      var nearest := SnapToStep(value);
      UpdateValveState(valveId, nearest, nearest > 0, draw);
    }

    /**
     * The toggle button flips an existing valve: opening sets 100%, closing
     * 0%.  An unknown id changes nothing, not even the reading.
     */
    method HandleValveToggle(valveId: string, draw: real)
      requires Valid()
      requires 0.0 <= draw < 1.0
      modifies this`valves, this`flowRate, this`flowPeak
      ensures Valid()
      ensures |valves| == |old(valves)|
      ensures forall i :: 0 <= i < |valves| ==>
        valves[i] == if old(valves)[i].id == valveId
                     then old(valves)[i].(percentage := if old(valves)[i].open then 0 else 100,
                                          open := !old(valves)[i].open)
                     else old(valves)[i]
      ensures valveId !in ValveIds(old(valves)) ==>
        valves == old(valves) && flowRate == old(flowRate) && flowPeak == old(flowPeak)
      ensures valveId in ValveIds(old(valves)) ==> FlowUpdated(old(flowPeak), draw)
      ensures old(ValvesConsistent()) ==> ValvesConsistent()
    {
      var found := FirstIndexOf(ValveIds(valves), valveId);
      if found.Some? {
        var newOpen := !valves[found.value].open;
        var newPercentage := if newOpen then 100 else 0;
        UpdateValveState(valveId, newPercentage, newOpen, draw);
      }
    }

    /**
     * Recomputes the flow reading: the enabled pumps' flow, scaled by the
     * average opening of the open valves, plus noise, never below 0; the peak
     * follows it upwards.
     */
    method UpdateFlowRate(draw: real)
      requires Valid()
      requires 0.0 <= draw < 1.0
      modifies this`flowRate, this`flowPeak
      ensures Valid()
      ensures FlowUpdated(old(flowPeak), draw)
      ensures flowPeak >= old(flowPeak)
    {
      var totalFlow := SumEnabledFlow();
      var openCount, openSum := SumOpenValves();
      totalFlow := Throttle(totalFlow, openSum, openCount);
      flowRate := NonNegative(totalFlow + Jitter(draw));
      if flowRate > flowPeak {
        flowPeak := flowRate;
      }
    }

    /** The `forEach` of the flow update: the summed flow of the enabled pumps. */
    method SumEnabledFlow() returns (total: real)
      ensures total == EnabledFlow(pumps)
    {
      total := 0.0;
      for i := 0 to |pumps|
        invariant total == EnabledFlow(pumps[..i])
      {
        assert pumps[..i + 1][..i] == pumps[..i];
        if pumps[i].enabled {
          total := total + pumps[i].flow;
        }
      }
      assert pumps[..|pumps|] == pumps;
    }

    /** The `filter` and `reduce` of the flow update: how many valves pass water, and their summed percentage. */
    method SumOpenValves() returns (count: nat, sum: int)
      ensures count == OpenCount(valves) && sum == OpenSum(valves)
    {
      count, sum := 0, 0;
      for j := 0 to |valves|
        invariant count == OpenCount(valves[..j])
        invariant sum == OpenSum(valves[..j])
      {
        assert valves[..j + 1][..j] == valves[..j];
        if valves[j].open && valves[j].percentage > 0 {
          count := count + 1;
          sum := sum + valves[j].percentage;
        }
      }
      assert valves[..|valves|] == valves;
    }

    /** Dismisses the alert with that id; dismissing again or an unknown id changes nothing more. */
    method DismissAlert(id: int)
      requires Valid()
      modifies this`alerts
      ensures Valid()
      ensures alerts == Dismiss(old(alerts), id)
    {
      var found := FirstIndexOf(AlertIds(alerts), id);
      if found.Some? {
        var k := found.value;
        alerts := alerts[k := alerts[k].(dismissed := true)];
        DismissKeepsIds(old(alerts), id);
      }
    }

    /**
     * Fill All: pressed while filling all, it stops that mode; otherwise it
     * first ends Empty All (clearing every tank's draining) and starts the
     * mode.  Then every tank below 100% is set filling and not draining, and
     * every other tank, or every tank when the mode stopped, not filling.
     */
    method FillAllTanks()
      requires Valid()
      modifies this`tanks, this`isFillingAll, this`isEmptyingAll
      ensures Valid()
      ensures isFillingAll == !old(isFillingAll) && !isEmptyingAll
      ensures |tanks| == |old(tanks)|
      ensures forall i :: 0 <= i < |tanks| ==>
        tanks[i] == FillAllEffect(if !old(isFillingAll) && old(isEmptyingAll)
                                  then old(tanks)[i].(draining := false)
                                  else old(tanks)[i], isFillingAll)
      ensures isFillingAll ==> forall i :: 0 <= i < |tanks| ==>
        if tanks[i].level < FullLevel then tanks[i].filling && !tanks[i].draining else !tanks[i].filling
      ensures !isFillingAll ==> forall i :: 0 <= i < |tanks| ==> !tanks[i].filling
    {
      var ts := tanks;
      if isFillingAll {
        isFillingAll := false;
      } else {
        if isEmptyingAll {
          isEmptyingAll := false;
          for i := 0 to |ts|
            invariant |ts| == |old(tanks)|
            invariant forall k :: 0 <= k < |ts| ==>
              ts[k] == if k < i then old(tanks)[k].(draining := false) else old(tanks)[k]
          {
            ts := ts[i := ts[i].(draining := false)];
          }
        }
        isFillingAll := true;
      }
      ghost var before := ts;
      for i := 0 to |ts|
        invariant |ts| == |before|
        invariant forall k :: 0 <= k < |ts| ==>
          ts[k] == if k < i then FillAllEffect(before[k], isFillingAll) else before[k]
      {
        ts := ts[i := FillAllEffect(ts[i], isFillingAll)];
      }
      tanks := ts;
      assert TankIds(tanks) == TankIds(old(tanks));
    }

    /**
     * Empty All, symmetric to Fill All: it stops its own mode or ends Fill All
     * (clearing every tank's filling) and starts; then every tank above 0% is
     * set draining and not filling, and every other tank not draining.
     */
    method EmptyAllTanks()
      requires Valid()
      modifies this`tanks, this`isFillingAll, this`isEmptyingAll
      ensures Valid()
      ensures isEmptyingAll == !old(isEmptyingAll) && !isFillingAll
      ensures |tanks| == |old(tanks)|
      ensures forall i :: 0 <= i < |tanks| ==>
        tanks[i] == EmptyAllEffect(if !old(isEmptyingAll) && old(isFillingAll)
                                   then old(tanks)[i].(filling := false)
                                   else old(tanks)[i], isEmptyingAll)
      ensures isEmptyingAll ==> forall i :: 0 <= i < |tanks| ==>
        if tanks[i].level > 0 then tanks[i].draining && !tanks[i].filling else !tanks[i].draining
      ensures !isEmptyingAll ==> forall i :: 0 <= i < |tanks| ==> !tanks[i].draining
    {
      var ts := tanks;
      if isEmptyingAll {
        isEmptyingAll := false;
      } else {
        if isFillingAll {
          isFillingAll := false;
          for i := 0 to |ts|
            invariant |ts| == |old(tanks)|
            invariant forall k :: 0 <= k < |ts| ==>
              ts[k] == if k < i then old(tanks)[k].(filling := false) else old(tanks)[k]
          {
            ts := ts[i := ts[i].(filling := false)];
          }
        }
        isEmptyingAll := true;
      }
      ghost var before := ts;
      for i := 0 to |ts|
        invariant |ts| == |before|
        invariant forall k :: 0 <= k < |ts| ==>
          ts[k] == if k < i then EmptyAllEffect(before[k], isEmptyingAll) else before[k]
      {
        ts := ts[i := EmptyAllEffect(ts[i], isEmptyingAll)];
      }
      tanks := ts;
      assert TankIds(tanks) == TankIds(old(tanks));
    }

    /**
     * The confirmed emergency stop: every pump but the exempt one is switched
     * off, no tank fills or drains, both quick-action modes end and every
     * valve closes to 0%.  Pump `i`'s flow update uses `draws[i]`, valve `j`'s
     * uses `draws[|pumps| + j]`.
     */
    method EmergencyStop(draws: seq<real>)
      requires Valid()
      requires |draws| >= |pumps| + |valves|
      requires forall k :: 0 <= k < |draws| ==> 0.0 <= draws[k] < 1.0
      modifies this`pumps, this`tanks, this`isFillingAll, this`isEmptyingAll, this`valves, this`flowRate, this`flowPeak
      ensures Valid() && ValvesConsistent()
      ensures pumps == StopFirst(old(pumps), |old(pumps)|)
      ensures |tanks| == |old(tanks)|
      ensures forall i :: 0 <= i < |tanks| ==> tanks[i] == old(tanks)[i].(filling := false, draining := false)
      ensures !isFillingAll && !isEmptyingAll
      ensures valves == CloseFirst(old(valves), |old(valves)|)
      ensures StopFlow(old(pumps), old(valves), draws, old(flowPeak), old(flowRate), flowPeak, flowRate)
    {
      var n := |pumps|;
      ghost var vs0 := valves;
      HaltPumpsAndTanks(draws[..n]);
      ghost var peak1, rate1, stopped := flowPeak, flowRate, pumps;
      CloseValves(draws[n..]);
      EmergencyFlow(old(pumps), vs0, draws, old(flowPeak), old(flowRate), peak1, rate1, flowPeak, flowRate, stopped, draws[n..]);
    }

    /** The first phase of the emergency stop: every pump but the exempt one is switched off. */
    method StopPumps(draws: seq<real>)
      requires Valid()
      requires |draws| >= |pumps|
      requires forall k :: 0 <= k < |draws| ==> 0.0 <= draws[k] < 1.0
      modifies this`pumps, this`flowRate, this`flowPeak
      ensures Valid()
      ensures |pumps| == |old(pumps)|
      ensures pumps == StopFirst(old(pumps), |pumps|)
      ensures flowPeak == PeakAfter(old(flowPeak), StopReadings(old(pumps), valves, draws, |pumps|))
      ensures flowRate == LatestReading(old(flowRate), StopReadings(old(pumps), valves, draws, |pumps|))
    {
      for i := 0 to |pumps|
        invariant |pumps| == |old(pumps)|
        invariant Valid() && StoppedUpTo(old(pumps), draws, i, old(flowPeak), old(flowRate))
      {
        StopPumpAt(i, draws, old(pumps), old(flowPeak), old(flowRate));
      }
    }

    /** The pump pass has gone over the first `i` pumps of `ps0`, each switch-off updating the reading and its peak. */
    ghost predicate StoppedUpTo(ps0: seq<Pump>, draws: seq<real>, i: nat, peak0: real, rate0: real)
      requires i <= |ps0| && i <= |draws|
      reads this`pumps, this`valves, this`flowPeak, this`flowRate
    {
      && pumps == StopFirst(ps0, i)
      && flowPeak == PeakAfter(peak0, StopReadings(ps0, valves, draws, i))
      && flowRate == LatestReading(rate0, StopReadings(ps0, valves, draws, i))
    }

    /** One step of the pump pass: pump `i` is switched off, updating the reading with noise `draws[i]`, unless it is exempt. */
    method StopPumpAt(i: nat, draws: seq<real>, ghost ps0: seq<Pump>, ghost peak0: real, ghost rate0: real)
      requires Valid()
      requires i < |ps0| <= |draws| && 0.0 <= draws[i] < 1.0
      requires StoppedUpTo(ps0, draws, i, peak0, rate0)
      modifies this`pumps, this`flowRate, this`flowPeak
      ensures Valid() && |pumps| == |old(pumps)|
      ensures StoppedUpTo(ps0, draws, i + 1, peak0, rate0)
    {
      ghost var prev, prevPeak, prevRate := pumps, flowPeak, flowRate;
      if pumps[i].id != ExemptPumpId {
        UpdatePumpState(i, false, 0.0, draws[i]);
      }
      StopAdvance(ps0, valves, draws, i, peak0, rate0, prev, prevPeak, prevRate, pumps, flowPeak, flowRate);
    }

    /** The second phase of the emergency stop: no tank fills or drains. */
    method ClearTankFlags()
      requires Valid()
      modifies this`tanks
      ensures Valid()
      ensures |tanks| == |old(tanks)|
      ensures forall i :: 0 <= i < |tanks| ==> tanks[i] == old(tanks)[i].(filling := false, draining := false)
    {
      var ts := tanks;
      for i := 0 to |ts|
        invariant |ts| == |old(tanks)|
        invariant forall k :: 0 <= k < |ts| ==>
          ts[k] == if k < i then old(tanks)[k].(filling := false, draining := false) else old(tanks)[k]
      {
        ts := ts[i := ts[i].(filling := false, draining := false)];
      }
      tanks := ts;
      assert TankIds(tanks) == TankIds(old(tanks));
    }

    /** The first two phases of the emergency stop: the pumps are switched off, then every tank and both quick-action modes stop filling and draining. */
    method HaltPumpsAndTanks(draws: seq<real>)
      requires Valid()
      requires |draws| >= |pumps|
      requires forall k :: 0 <= k < |draws| ==> 0.0 <= draws[k] < 1.0
      modifies this`pumps, this`tanks, this`isFillingAll, this`isEmptyingAll, this`flowRate, this`flowPeak
      ensures Valid()
      ensures |pumps| == |old(pumps)|
      ensures pumps == StopFirst(old(pumps), |pumps|)
      ensures flowPeak == PeakAfter(old(flowPeak), StopReadings(old(pumps), valves, draws, |pumps|))
      ensures flowRate == LatestReading(old(flowRate), StopReadings(old(pumps), valves, draws, |pumps|))
      ensures |tanks| == |old(tanks)|
      ensures forall i :: 0 <= i < |tanks| ==> tanks[i] == old(tanks)[i].(filling := false, draining := false)
      ensures !isFillingAll && !isEmptyingAll
    {
      StopPumps(draws);
      ClearTankFlags();
      isFillingAll := false;
      isEmptyingAll := false;
    }

    /** The last phase of the emergency stop: every valve is closed to 0%, valve `j` updating the reading with `draws[j]`. */
    method CloseValves(draws: seq<real>)
      requires Valid()
      requires |draws| >= |valves|
      requires forall k :: 0 <= k < |draws| ==> 0.0 <= draws[k] < 1.0
      modifies this`valves, this`flowRate, this`flowPeak
      ensures Valid() && OpenAgrees(valves)
      ensures |valves| == |old(valves)|
      ensures valves == CloseFirst(old(valves), |valves|)
      ensures flowPeak == PeakAfter(old(flowPeak), CloseReadings(pumps, old(valves), draws, |valves|))
      ensures flowRate == LatestReading(old(flowRate), CloseReadings(pumps, old(valves), draws, |valves|))
      ensures |valves| > 0 ==> flowRate == NonNegative(EnabledFlow(pumps) + Jitter(draws[|valves| - 1]))
    {
      CloseAll(draws);
      ClosedReading(pumps, old(valves), draws, flowRate);
      AllClosedAgree(old(valves));
    }

    /** The loop of the valve pass. */
    method CloseAll(draws: seq<real>)
      requires Valid()
      requires |draws| >= |valves|
      requires forall k :: 0 <= k < |draws| ==> 0.0 <= draws[k] < 1.0
      modifies this`valves, this`flowRate, this`flowPeak
      ensures Valid() && |valves| == |old(valves)|
      ensures ClosedUpTo(old(valves), draws, |valves|, old(flowPeak), old(flowRate))
    {
      for j := 0 to |valves|
        invariant |valves| == |old(valves)|
        invariant Valid() && ClosedUpTo(old(valves), draws, j, old(flowPeak), old(flowRate))
      {
        CloseValveAt(j, draws, old(valves), old(flowPeak), old(flowRate));
      }
    }

    /** The valve pass has closed the first `j` valves of `vs0`, each closure updating the reading and its peak. */
    ghost predicate ClosedUpTo(vs0: seq<Valve>, draws: seq<real>, j: nat, peak0: real, rate0: real)
      requires j <= |vs0| && j <= |draws|
      reads this`valves, this`pumps, this`flowPeak, this`flowRate
    {
      && valves == CloseFirst(vs0, j)
      && flowPeak == PeakAfter(peak0, CloseReadings(pumps, vs0, draws, j))
      && flowRate == LatestReading(rate0, CloseReadings(pumps, vs0, draws, j))
    }

    /** One step of the valve pass: valve `j`, found by its id, is closed to 0% and the reading updated with noise `draws[j]`. */
    method CloseValveAt(j: nat, draws: seq<real>, ghost vs0: seq<Valve>, ghost peak0: real, ghost rate0: real)
      requires Valid()
      requires j < |vs0| <= |draws| && 0.0 <= draws[j] < 1.0
      requires ClosedUpTo(vs0, draws, j, peak0, rate0)
      modifies this`valves, this`flowRate, this`flowPeak
      ensures Valid() && |valves| == |old(valves)|
      ensures ClosedUpTo(vs0, draws, j + 1, peak0, rate0)
    {
      ghost var prev, prevPeak, prevRate := valves, flowPeak, flowRate;
      UpdateValveState(valves[j].id, 0, false, draws[j]);
      CloseOnly(prev, valves, j);
      CloseAdvance(pumps, vs0, draws, j, peak0, rate0, prev, prevPeak, prevRate, valves, flowPeak, flowRate);
    }

    /**
     * One tick of the level simulation: each tank moves as `TickTank` says,
     * with the main pump as it is now; afterwards no tank fills at 100% or
     * drains at 0%.
     */
    method Tick()
      requires Valid()
      modifies this`tanks
      ensures Valid()
      ensures |tanks| == |old(tanks)|
      ensures forall i :: 0 <= i < |tanks| ==> tanks[i] == TickTank(old(tanks)[i], pumps[0].enabled)
      ensures forall i :: 0 <= i < |tanks| ==>
        !(tanks[i].filling && tanks[i].level >= FullLevel) && !(tanks[i].draining && tanks[i].level <= 0)
    {
      var mainPumpOn := pumps[0].enabled;
      for i := 0 to |tanks|
        invariant Valid()
        invariant |tanks| == |old(tanks)|
        invariant forall k :: 0 <= k < |tanks| ==>
          tanks[k] == if k < i then TickTank(old(tanks)[k], mainPumpOn) else old(tanks)[k]
      {
        TickTankAt(i, mainPumpOn);
      }
    }

    /** The tick's step for the tank at position `i`: move its level, then settle its flags. */
    method TickTankAt(i: nat, mainPumpOn: bool)
      requires Valid()
      requires i < |tanks|
      modifies this`tanks
      ensures Valid()
      ensures tanks == old(tanks)[i := TickTank(old(tanks)[i], mainPumpOn)]
    {
      MoveTankLevel(i, mainPumpOn);
      var settled := tanks[i];
      if settled.filling && settled.level >= FullLevel {
        settled := settled.(filling := false);
      }
      if settled.draining && settled.level <= 0 {
        settled := settled.(draining := false);
      }
      tanks := tanks[i := settled];
      assert TankIds(tanks) == TankIds(old(tanks));
    }

    /** The level change of the tick for the tank at position `i`: fill, drain, leak or stay. */
    method MoveTankLevel(i: nat, mainPumpOn: bool)
      requires Valid()
      requires i < |tanks|
      modifies this`tanks
      ensures Valid()
      ensures tanks == old(tanks)[i := old(tanks)[i].(level := TickLevel(old(tanks)[i], mainPumpOn))]
    {
      var tank := tanks[i];
      if tank.filling && tank.level < FullLevel && mainPumpOn {
        UpdateTankLevel(tank.id, FillStep);
      } else if tank.draining && tank.level > 0 {
        UpdateTankLevel(tank.id, -DrainStep);
      } else if !tank.filling && !tank.draining {
        UpdateTankLevel(tank.id, -LeakStep);
      }
      forall k | 0 <= k < |tanks| && k != i
        ensures tanks[k] == old(tanks)[k]
      {
        assert TankIds(old(tanks))[k] != TankIds(old(tanks))[i];
      }
    }
  }
}
