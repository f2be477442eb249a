/**
 * Tank records and the rules applied to them.
 *
 * A level is an integer in hundredths of a percent: 0 is empty, `FullLevel`
 * (10000) is the dashboard's 100%.  The dashboard's per-tick changes of +0.5,
 * -0.3 and -0.05 percent are `FillStep`, `DrainStep` and `LeakStep`, and the
 * initial levels 65 and 40 are 6500 and 4000.
 */
module Tanks {
  import opened Lookup

  datatype Tank = Tank(id: int, name: string, level: int, capacity: int, filling: bool, draining: bool)

  const FullLevel: int := 10000
  const FillStep: int := 50
  const DrainStep: int := 30
  const LeakStep: int := 5

  const DefaultCapacity: int := 1000
  const MinCapacity: int := 100
  const MaxCapacity: int := 100000

  function TankIds(ts: seq<Tank>): seq<int>
  {
    Ids(ts, (t: Tank) => t.id)
  }

  /** `Math.max(0, Math.min(100, x))` on the scaled level. */
  function Clamp(x: int): (r: int)
    ensures 0 <= r <= FullLevel
    ensures 0 <= x <= FullLevel ==> r == x
    ensures x < 0 ==> r == 0
    ensures x > FullLevel ==> r == FullLevel
  {
    if x < 0 then 0 else if x > FullLevel then FullLevel else x
  }

  /** The "Est. Full" label of a tank card. */
  datatype EstFull = Full | Minutes(n: int) | Unknown

  /**
   * A full tank reads Full; a filling tank the remaining percent over 1.5,
   * a draining one its level over 2, both rounded half up as `Math.round`
   * does; an idle tank reads "--".
   */
  function EstFullTime(t: Tank): (r: EstFull)
    ensures r == Full <==> t.level >= FullLevel
    ensures r == Unknown <==> t.level < FullLevel && !t.filling && !t.draining
    ensures t.level < FullLevel && t.filling ==>
      r.Minutes? && 150 * r.n - 75 <= FullLevel - t.level < 150 * r.n + 75
    ensures t.level < FullLevel && !t.filling && t.draining ==>
      r.Minutes? && 200 * r.n - 100 <= t.level < 200 * r.n + 100
  {
    if t.level >= FullLevel then Full
    else if t.filling then Minutes((FullLevel - t.level + 75) / 150)
    else if t.draining then Minutes((t.level + 100) / 200)
    else Unknown
  }

  /** The level a tank has after one simulation tick, before its flags are settled. */
  function TickLevel(t: Tank, mainPumpOn: bool): (r: int)
    ensures 0 <= t.level <= FullLevel ==> 0 <= r <= FullLevel
    ensures 0 <= t.level <= FullLevel && r > t.level ==> t.filling && mainPumpOn && r <= t.level + FillStep
  {
    if t.filling && t.level < FullLevel && mainPumpOn then Clamp(t.level + FillStep)
    else if t.draining && t.level > 0 then Clamp(t.level - DrainStep)
    else if !t.filling && !t.draining then Clamp(t.level - LeakStep)
    else t.level
  }

  /** One tank after one simulation tick: new level, then filling stopped when full and draining stopped when empty. */
  function TickTank(t: Tank, mainPumpOn: bool): (r: Tank)
    ensures r.id == t.id && r.name == t.name && r.capacity == t.capacity
    ensures r.level == TickLevel(t, mainPumpOn)
    ensures r.filling == (t.filling && r.level < FullLevel)
    ensures r.draining == (t.draining && r.level > 0)
  {
    var moved := t.(level := TickLevel(t, mainPumpOn));
    var settled := if moved.filling && moved.level >= FullLevel then moved.(filling := false) else moved;
    if settled.draining && settled.level <= 0 then settled.(draining := false) else settled
  }

  /**
   * What one tick does to a tank whose level is in range: the level stays in
   * range; it rises only when the tank fills with the main pump on, and then by
   * 0.5% up to the clamp; otherwise a draining tank above 0% falls by 0.3% down
   * to the clamp; it never falls by more; a flagged tank that can neither fill
   * nor drain stays put; an idle tank leaks 0.05%; no tank is left filling at
   * 100% or draining at 0%.
   */
  lemma TickTankEffect(t: Tank, mainPumpOn: bool)
    requires 0 <= t.level <= FullLevel
    ensures var r := TickTank(t, mainPumpOn);
      && 0 <= r.level <= FullLevel
      && (r.level > t.level <==> t.filling && mainPumpOn && t.level < FullLevel)
      && t.level - DrainStep <= r.level <= t.level + FillStep
      && ((t.filling || t.draining) && !(t.filling && mainPumpOn && t.level < FullLevel)
            && !(t.draining && t.level > 0)
          ==> r.level == t.level)
      && (!t.filling && !t.draining ==> r.level == Clamp(t.level - LeakStep))
      && (t.filling && mainPumpOn && t.level < FullLevel ==> r.level == Clamp(t.level + FillStep))
      && (!(t.filling && mainPumpOn && t.level < FullLevel) && t.draining && t.level > 0 ==>
            r.level == Clamp(t.level - DrainStep))
      && !(r.filling && r.level >= FullLevel)
      && !(r.draining && r.level <= 0)
  {
  }

  /** One tank after the per-tank pass of Fill All, with `fillingAll` the new mode. */
  function FillAllEffect(t: Tank, fillingAll: bool): (r: Tank)
    ensures r == t.(filling := r.filling, draining := r.draining)
    ensures fillingAll && t.level < FullLevel ==> r.filling && !r.draining
    ensures !(fillingAll && t.level < FullLevel) ==> !r.filling && r.draining == t.draining
  {
    if fillingAll && t.level < FullLevel then t.(filling := true, draining := false)
    else t.(filling := false)
  }

  /** One tank after the per-tank pass of Empty All, with `emptyingAll` the new mode. */
  function EmptyAllEffect(t: Tank, emptyingAll: bool): (r: Tank)
    ensures r == t.(filling := r.filling, draining := r.draining)
    ensures emptyingAll && t.level > 0 ==> r.draining && !r.filling
    ensures !(emptyingAll && t.level > 0) ==> !r.draining && r.filling == t.filling
  {
    if emptyingAll && t.level > 0 then t.(draining := true, filling := false)
    else t.(draining := false)
  }

  /** The number a string of decimal digits denotes, read most significant digit first. */
  function DigitsValue(s: string): nat
  {
    if |s| == 0 then 0
    else
      var d := s[|s| - 1] as int - '0' as int;
      DigitsValue(s[..|s| - 1]) * 10 + (if 0 <= d <= 9 then d else 0)
  }

  /** The decimal digits of `n`, as a template literal prints a non-negative integer. */
  function DecimalString(n: nat): (s: string)
    ensures |s| >= 1
    ensures forall i :: 0 <= i < |s| ==> '0' <= s[i] <= '9'
    ensures DigitsValue(s) == n
    ensures s[0] == '0' ==> n == 0 && |s| == 1
  {
    if n < 10 then [(n + 48) as char]
    else
      var s := DecimalString(n / 10) + [(n % 10 + 48) as char];
      assert s[..|s| - 1] == DecimalString(n / 10);
      s
  }

  /** The name a tank added without one gets: "Tank " followed by the digits of its id. */
  function DefaultTankName(id: nat): (name: string)
    ensures |name| > 5 && name[..5] == "Tank "
    ensures forall i :: 5 <= i < |name| ==> '0' <= name[i] <= '9'
    ensures DigitsValue(name[5..]) == id
    ensures name[5] == '0' ==> id == 0 && |name| == 6
  {
    assert ("Tank " + DecimalString(id))[5..] == DecimalString(id);
    "Tank " + DecimalString(id)
  }

  /** Tanks with different ids never get the same default name. */
  lemma DefaultNamesDiffer(a: nat, b: nat)
    requires a != b
    ensures DefaultTankName(a) != DefaultTankName(b)
  {
  }

  /**
   * The capacity the add-tank form submits: `parseInt(...) || 1000`, where
   * `None` is the NaN of an unparsable field; NaN and 0 both fall back to 1000.
   */
  function RequestedCapacity(parsed: Option<int>): (c: int)
    ensures c != 0
    ensures parsed.Some? && parsed.value != 0 ==> c == parsed.value
    ensures parsed.None? || parsed.value == 0 ==> c == DefaultCapacity
  {
    match parsed
    case None => DefaultCapacity
    case Some(v) => if v == 0 then DefaultCapacity else v
  }

  /** The form accepts a capacity from 100 to 100000 liters. */
  predicate CapacityAccepted(c: int)
  {
    MinCapacity <= c <= MaxCapacity
  }

  /**
   * A blank, unparsable or zero capacity field falls back to 1000 liters and
   * is accepted; a value the user typed is accepted exactly when it lies in
   * the form's range.
   */
  lemma RequestedCapacityAccepted(parsed: Option<int>)
    ensures parsed.None? || parsed.value == 0 ==> CapacityAccepted(RequestedCapacity(parsed))
    ensures parsed.Some? && parsed.value != 0 ==>
      (CapacityAccepted(RequestedCapacity(parsed)) <==> MinCapacity <= parsed.value <= MaxCapacity)
  {
  }

  /**
   * The record `addNewTank` appends: empty and idle under the given id, never
   * nameless (a blank name becomes the default) and never of capacity 0 (a
   * zero capacity becomes 1000 liters).
   */
  function NewTank(id: nat, name: string, capacity: int): (t: Tank)
    ensures t.id == id && t.level == 0 && !t.filling && !t.draining
    ensures t.name != "" && (name != "" ==> t.name == name)
    ensures t.capacity != 0 && (capacity != 0 ==> t.capacity == capacity)
    ensures name == "" ==> t.name == DefaultTankName(id)
    ensures capacity == 0 ==> t.capacity == DefaultCapacity
  {
    Tank(id, if name == "" then DefaultTankName(id) else name, 0,
         if capacity == 0 then DefaultCapacity else capacity, false, false)
  }
}
