/** Valve records and the snapping of a typed percentage to a dial step. */
module Valves {
  import opened Lookup

  datatype Valve = Valve(id: string, name: string, open: bool, percentage: int)

  function ValveIds(vs: seq<Valve>): seq<string>
  {
    Ids(vs, (v: Valve) => v.id)
  }

  /** Every valve is open exactly when its percentage is positive. */
  predicate OpenAgrees(vs: seq<Valve>)
  {
    forall i :: 0 <= i < |vs| ==> (vs[i].open <==> vs[i].percentage > 0)
  }

  /** The dial steps, in the order the snap scans them. */
  const Steps: seq<int> := [0, 25, 50, 75, 100]

  /** `Math.abs(a - b)`. */
  function Dist(a: int, b: int): nat
  {
    if a >= b then a - b else b - a
  }

  /**
   * `n` is the step the snap must return for `v`: a step, no farther from `v`
   * than any step, and strictly nearer than every lower step (the scan
   * replaces its choice only on a strictly smaller distance, so a tie keeps
   * the lower step).
   */
  ghost predicate IsNearestStep(v: int, n: int)
  {
    && n in Steps
    && (forall j :: 0 <= j < |Steps| ==> Dist(v, n) <= Dist(v, Steps[j]))
    && (forall j :: 0 <= j < |Steps| && Steps[j] < n ==> Dist(v, n) < Dist(v, Steps[j]))
  }

  /** A closed form of the snap: the step whose half-way band holds `v`. */
  function NearestStep(v: int): (step: int)
    ensures step in Steps
  {
    if v <= 12 then 0
    else if v <= 37 then 25
    else if v <= 62 then 50
    else if v <= 87 then 75
    else 100
  }

  /** The closed form picks the nearest step. */
  lemma NearestStepIsNearest(v: int)
    ensures IsNearestStep(v, NearestStep(v))
  {
    var n := NearestStep(v);
    assert n in Steps;
    forall j | 0 <= j < |Steps|
      ensures Dist(v, n) <= Dist(v, Steps[j])
      ensures Steps[j] < n ==> Dist(v, n) < Dist(v, Steps[j])
    {
    }
  }

  /** At most one step satisfies the snap's specification. */
  lemma NearestStepUnique(v: int, a: int, b: int)
    requires IsNearestStep(v, a) && IsNearestStep(v, b)
    ensures a == b
  {
    var ia :| 0 <= ia < |Steps| && Steps[ia] == a;
    var ib :| 0 <= ib < |Steps| && Steps[ib] == b;
    assert Dist(v, a) <= Dist(v, Steps[ib]);
    assert Dist(v, b) <= Dist(v, Steps[ia]);
  }

  /** The scan of `handleInputChange`: the step at the least distance from `value`, first found on ties. */
  method SnapToStep(value: int) returns (nearest: int)
    ensures IsNearestStep(value, nearest)
    ensures nearest == NearestStep(value)
  {
    nearest := Steps[0];
    var minDiff := Dist(value, nearest);
    ghost var at := 0;
    for j := 0 to |Steps|
      invariant 0 <= at < |Steps| && nearest == Steps[at]
      invariant at == 0 || at < j
      invariant minDiff == Dist(value, nearest)
      invariant forall k :: 0 <= k < j ==> minDiff <= Dist(value, Steps[k])
      invariant forall k :: 0 <= k < j && Steps[k] < nearest ==> minDiff < Dist(value, Steps[k])
    {
      var diff := Dist(value, Steps[j]);
      if diff < minDiff {
        minDiff := diff;
        nearest := Steps[j];
        at := j;
      }
    }
    NearestStepIsNearest(value);
    NearestStepUnique(value, nearest, NearestStep(value));
  }

  /**
   * What the snap promises at the edges: a value already on a step is kept,
   * a value below the dial gives 0, one above it gives 100.
   */
  lemma SnapEdges(v: int)
    ensures v in Steps ==> NearestStep(v) == v
    ensures v < 0 ==> NearestStep(v) == 0
    ensures v > 100 ==> NearestStep(v) == 100
  {
  }
}
