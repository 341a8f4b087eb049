/** The planning functions of the port-call (escale) calculator: how long the
    holds (cales) of a vessel take to unload, how many dockers the call needs,
    what the dockers and the equipment cost, and which working shift is
    recommended. Tonnages, rates, durations and costs are Python floats,
    modelled as exact reals; head-counts and equipment units are Python ints. */
module Escale {
  import opened Outcomes
  import opened Sums

  // ---------------------------------------------------------------------
  // Unloading duration (calcul_duree_escale)
  // ---------------------------------------------------------------------

  /** Whether the first `k` holds can be read without an `IndexError`: the
      rate of every such hold exists, and the tonnage of every such hold
      whose rate is positive exists (the tonnage is not read otherwise). */
  predicate Readable(tonnage: seq<real>, rate: seq<real>, k: nat)
  {
    k <= |rate| && forall i :: |tonnage| <= i < k ==> rate[i] <= 0.0
  }

  /** Duration of the hold at index `i`: tonnage over unloading rate, or 0
      when the rate is not positive. */
  function HoldDuration(tonnage: seq<real>, rate: seq<real>, i: nat): real
    requires i < |rate| && (rate[i] > 0.0 ==> i < |tonnage|)
  {
    if rate[i] > 0.0 then tonnage[i] / rate[i] else 0.0
  }

  /** The list comprehension building the per-hold durations, evaluated
      element by element from hold 0 as Python does; the first element that
      cannot be read raises. */
  function HoldDurations(tonnage: seq<real>, rate: seq<real>, k: nat): (r: Outcome<seq<real>>)
    ensures r.Returns? <==> Readable(tonnage, rate, k)
    ensures r.Returns? ==> |r.value| == k
    ensures r.Returns? ==> forall i :: 0 <= i < k ==> r.value[i] == HoldDuration(tonnage, rate, i)
  {
    if k == 0 then Returns([])
    else
      match HoldDurations(tonnage, rate, k - 1)
      case IndexError => IndexError
      case Returns(prefix) =>
        if k - 1 >= |rate| || (rate[k - 1] > 0.0 && k - 1 >= |tonnage|) then IndexError
        else Returns(prefix + [HoldDuration(tonnage, rate, k - 1)])
  }

  /** `range(holds)` is empty for a negative count. */
  function HoldCount(holds: int): nat
  {
    if holds < 0 then 0 else holds
  }

  /** calcul_duree_escale: the per-hold durations and the total duration of
      the call. */
  function StayDuration(tonnage: seq<real>, rate: seq<real>, holds: int): (r: Outcome<(seq<real>, real)>)
    ensures r.Returns? <==> Readable(tonnage, rate, HoldCount(holds))
    ensures r.Returns? ==> |r.value.0| == HoldCount(holds)
    ensures r.Returns? ==> forall i :: 0 <= i < |r.value.0| ==>
      r.value.0[i] == (if rate[i] > 0.0 then tonnage[i] / rate[i] else 0.0)
    ensures r.Returns? ==> r.value.1 == Sum(r.value.0)
  {
    match HoldDurations(tonnage, rate, HoldCount(holds))
    case IndexError => IndexError
    case Returns(durations) =>
      Returns((durations, if durations != [] then Sum(durations) else 0.0))
  }

  /** With no holds the call takes no time. */
  lemma StayDurationNoHolds(tonnage: seq<real>, rate: seq<real>, holds: int)
    requires holds <= 0
    ensures StayDuration(tonnage, rate, holds) == Returns(([], 0.0))
  {
  }

  /** Multiplying a hold's duration back by its positive rate gives its
      tonnage; a hold whose rate is not positive takes no time. */
  lemma StayDurationRoundTrip(tonnage: seq<real>, rate: seq<real>, holds: int, i: nat)
    requires StayDuration(tonnage, rate, holds).Returns?
    requires i < HoldCount(holds)
    ensures rate[i] > 0.0 ==> StayDuration(tonnage, rate, holds).value.0[i] * rate[i] == tonnage[i]
    ensures rate[i] <= 0.0 ==> StayDuration(tonnage, rate, holds).value.0[i] == 0.0
  {
  }

  /** Non-negative tonnages give non-negative per-hold durations and a
      non-negative total. */
  lemma StayDurationNonNegative(tonnage: seq<real>, rate: seq<real>, holds: int)
    requires StayDuration(tonnage, rate, holds).Returns?
    requires forall i :: 0 <= i < |tonnage| ==> tonnage[i] >= 0.0
    ensures forall i :: 0 <= i < HoldCount(holds) ==> StayDuration(tonnage, rate, holds).value.0[i] >= 0.0
    ensures StayDuration(tonnage, rate, holds).value.1 >= 0.0
  {
    var durations := StayDuration(tonnage, rate, holds).value.0;
    SumNonNegative(durations);
  }

  /** When every hold has a positive rate and a non-negative tonnage, the call
      takes no time exactly when every hold is empty. */
  lemma StayDurationZeroIff(tonnage: seq<real>, rate: seq<real>, holds: int)
    requires StayDuration(tonnage, rate, holds).Returns?
    requires forall i :: 0 <= i < |tonnage| ==> tonnage[i] >= 0.0
    requires forall i :: 0 <= i < HoldCount(holds) ==> rate[i] > 0.0
    ensures StayDuration(tonnage, rate, holds).value.1 == 0.0 <==>
      forall i :: 0 <= i < HoldCount(holds) ==> tonnage[i] == 0.0
  {
    var durations := StayDuration(tonnage, rate, holds).value.0;
    StayDurationNonNegative(tonnage, rate, holds);
    SumZeroIff(durations);
    forall i | 0 <= i < HoldCount(holds)
      ensures durations[i] == 0.0 <==> tonnage[i] == 0.0
    {
      StayDurationRoundTrip(tonnage, rate, holds, i);
    }
  }

  /** Two holds of 1000 t at 100 t/h and 500 t at 50 t/h take 10 hours
      each, 20 hours in all. */
  lemma StayDurationTwoHolds()
    ensures StayDuration([1000.0, 500.0], [100.0, 50.0], 2) == Returns(([10.0, 10.0], 20.0))
  {
    var r := StayDuration([1000.0, 500.0], [100.0, 50.0], 2);
    assert r.value.0 == [10.0, 10.0];
    assert Sum([10.0, 10.0]) == 20.0 by {
      assert [10.0, 10.0][..1] == [10.0];
      assert [10.0][..0] == [];
    }
  }

  // ---------------------------------------------------------------------
  // Docker head-count (allocation_dockers)
  // ---------------------------------------------------------------------

  /** allocation_dockers: the dockers of all holds, once per vessel in port.
      The number of holds is accepted and not used. */
  function DockerCount(holds: int, dockersPerHold: seq<int>, vessels: int): (r: int)
    ensures r == SumInt(dockersPerHold) * vessels
  {
    if dockersPerHold != [] then SumInt(dockersPerHold) * vessels else 0
  }

  /** Adding a hold adds its dockers once per vessel. */
  lemma DockerCountAddHold(holds: int, dockersPerHold: seq<int>, extra: int, vessels: int)
    ensures DockerCount(holds, dockersPerHold + [extra], vessels)
         == DockerCount(holds, dockersPerHold, vessels) + extra * vessels
  {
    assert (dockersPerHold + [extra])[..|dockersPerHold|] == dockersPerHold;
  }

  /** When every hold has at least one docker, every vessel needs at least one
      docker per hold. */
  lemma DockerCountAtLeastOnePerHold(holds: int, dockersPerHold: seq<int>, vessels: int)
    requires forall i :: 0 <= i < |dockersPerHold| ==> dockersPerHold[i] >= 1
    requires vessels >= 0
    ensures DockerCount(holds, dockersPerHold, vessels) >= |dockersPerHold| * vessels
  {
    SumIntAtLeastLength(dockersPerHold);
    var s := SumInt(dockersPerHold);
    assert s * vessels >= |dockersPerHold| * vessels by {
      assert (s - |dockersPerHold|) * vessels >= 0;
    }
  }

  // ---------------------------------------------------------------------
  // Docker cost (calcul_cout_dockers)
  // ---------------------------------------------------------------------

  /** calcul_cout_dockers: head-count times hourly rate times total duration,
      and 0 unless both the head-count and the duration are positive. */
  function LabourCost(dockers: int, duration: real, hourlyRate: real): (r: real)
    ensures dockers > 0 && duration > 0.0 ==> r == dockers as real * hourlyRate * duration
    ensures dockers <= 0 || duration <= 0.0 ==> r == 0.0
    ensures hourlyRate >= 0.0 ==> r >= 0.0
  {
    if dockers > 0 && duration > 0.0 then dockers as real * hourlyRate * duration else 0.0
  }

  /** For a non-negative rate, a longer call never costs less in labour. */
  lemma LabourCostMonotone(dockers: int, shorter: real, longer: real, hourlyRate: real)
    requires hourlyRate >= 0.0 && shorter <= longer
    ensures LabourCost(dockers, shorter, hourlyRate) <= LabourCost(dockers, longer, hourlyRate)
  {
    if dockers > 0 && shorter > 0.0 {
      var k := dockers as real * hourlyRate;
      assert k >= 0.0;
      assert k * (longer - shorter) >= 0.0;
    }
  }

  // ---------------------------------------------------------------------
  // Equipment cost (calcul_cout_materiel)
  // ---------------------------------------------------------------------

  /** Cost of the first `k` holds' equipment: units times hourly rate times
      that hold's duration, summed from hold 0. */
  function EquipmentSum(units: seq<int>, durations: seq<real>, hourlyRate: real, k: nat): real
    requires k <= |units| && k <= |durations|
  {
    if k == 0 then 0.0
    else EquipmentSum(units, durations, hourlyRate, k - 1) + units[k - 1] as real * hourlyRate * durations[k - 1]
  }

  /** calcul_cout_materiel: the equipment cost of every hold that has a
      duration. An empty equipment list costs 0 whatever the durations;
      otherwise a list shorter than the durations raises. */
  function EquipmentCost(units: seq<int>, durations: seq<real>, hourlyRate: real): (r: Outcome<real>)
    ensures r.Returns? <==> units == [] || |durations| <= |units|
    ensures units == [] ==> r == Returns(0.0)
  {
    if units == [] then Returns(0.0)
    else if |units| < |durations| then IndexError
    else Returns(EquipmentSum(units, durations, hourlyRate, |durations|))
  }

  /** Equipment-hours of the first `k` holds: units times duration, summed. */
  function EquipmentHours(units: seq<int>, durations: seq<real>, k: nat): real
    requires k <= |units| && k <= |durations|
  {
    if k == 0 then 0.0
    else EquipmentHours(units, durations, k - 1) + units[k - 1] as real * durations[k - 1]
  }

  lemma {:induction false} EquipmentSumFactors(units: seq<int>, durations: seq<real>, hourlyRate: real, k: nat)
    requires k <= |units| && k <= |durations|
    ensures EquipmentSum(units, durations, hourlyRate, k) == hourlyRate * EquipmentHours(units, durations, k)
  {
    if k > 0 {
      EquipmentSumFactors(units, durations, hourlyRate, k - 1);
    }
  }

  /** The equipment cost is the hourly rate applied once to the total
      equipment-hours. */
  lemma EquipmentCostIsRateTimesHours(units: seq<int>, durations: seq<real>, hourlyRate: real)
    requires units != [] && |durations| <= |units|
    ensures EquipmentCost(units, durations, hourlyRate) == Returns(hourlyRate * EquipmentHours(units, durations, |durations|))
  {
    assert EquipmentCost(units, durations, hourlyRate) == Returns(EquipmentSum(units, durations, hourlyRate, |durations|));
    EquipmentSumFactors(units, durations, hourlyRate, |durations|);
    assert EquipmentSum(units, durations, hourlyRate, |durations|) == hourlyRate * EquipmentHours(units, durations, |durations|);
  }

  lemma {:induction false} EquipmentSumNonNegative(units: seq<int>, durations: seq<real>, hourlyRate: real, k: nat)
    requires k <= |units| && k <= |durations|
    requires hourlyRate >= 0.0
    requires forall i :: 0 <= i < k ==> units[i] >= 0 && durations[i] >= 0.0
    ensures EquipmentSum(units, durations, hourlyRate, k) >= 0.0
  {
    if k > 0 {
      EquipmentSumNonNegative(units, durations, hourlyRate, k - 1);
      var term := units[k - 1] as real * hourlyRate;
      assert term >= 0.0;
      assert term * durations[k - 1] >= 0.0;
    }
  }

  /** Non-negative units, rate and durations cost a non-negative amount. */
  lemma EquipmentCostNonNegative(units: seq<int>, durations: seq<real>, hourlyRate: real)
    requires EquipmentCost(units, durations, hourlyRate).Returns?
    requires hourlyRate >= 0.0
    requires forall i :: 0 <= i < |units| ==> units[i] >= 0
    requires forall i :: 0 <= i < |durations| ==> durations[i] >= 0.0
    ensures EquipmentCost(units, durations, hourlyRate).value >= 0.0
  {
    if units != [] {
      EquipmentSumNonNegative(units, durations, hourlyRate, |durations|);
    }
  }

  lemma {:induction false} EquipmentSumPrefix(units: seq<int>, extra: seq<int>, durations: seq<real>, hourlyRate: real, k: nat)
    requires k <= |units| && k <= |durations|
    ensures EquipmentSum(units + extra, durations, hourlyRate, k) == EquipmentSum(units, durations, hourlyRate, k)
  {
    if k > 0 {
      EquipmentSumPrefix(units, extra, durations, hourlyRate, k - 1);
      assert (units + extra)[k - 1] == units[k - 1];
    }
  }

  /** Units listed for holds beyond the last duration are never charged. */
  lemma EquipmentCostIgnoresExtraUnits(units: seq<int>, extra: seq<int>, durations: seq<real>, hourlyRate: real)
    requires units != [] && |durations| <= |units|
    ensures EquipmentCost(units + extra, durations, hourlyRate) == EquipmentCost(units, durations, hourlyRate)
  {
    EquipmentSumPrefix(units, extra, durations, hourlyRate, |durations|);
  }

  // ---------------------------------------------------------------------
  // Working shift (selection_working_shift)
  // ---------------------------------------------------------------------

  /** A Python dict from shift name to cost factor, in insertion order. */
  type ShiftTable = seq<(string, real)>

  /** A dict holds each key once. */
  predicate DistinctKeys(t: ShiftTable)
  {
    forall i, j :: 0 <= i < j < |t| ==> t[i].0 != t[j].0
  }

  /** The shift table of selection_working_shift. */
  const Shifts: ShiftTable := [
    ("08h00-12h00 / 14h00-18h00", 1.0),
    ("06h00-13h00 / 13h00-20h00", 1.0),
    ("20h00-23h00 (majore)", 1.5)
  ]

  /** `t[key]`: the factor stored under `key`, if any. */
  function Lookup(t: ShiftTable, key: string): (r: Option<real>)
    ensures r.Some? <==> exists i :: 0 <= i < |t| && t[i].0 == key
    ensures DistinctKeys(t) ==> forall i :: 0 <= i < |t| && t[i].0 == key ==> r == Some(t[i].1)
  {
    if t == [] then None
    else if t[0].0 == key then Some(t[0].1)
    else
      var r := Lookup(t[1..], key);
      assert forall i :: 1 <= i < |t| ==> t[i] == t[1..][i - 1];
      r
  }

  /** The scan of `min(t, key=t.get)` from index `i` on, with `best` the index
      of the least factor met so far: an entry replaces it only when its factor
      is strictly smaller, so the first least entry is kept. */
  function MinScan(t: ShiftTable, i: nat, best: nat): (k: nat)
    requires best < i <= |t|
    requires forall j :: 0 <= j < i ==> t[best].1 <= t[j].1
    requires forall j :: 0 <= j < best ==> t[best].1 < t[j].1
    ensures k < |t|
    ensures forall j :: 0 <= j < |t| ==> t[k].1 <= t[j].1
    ensures forall j :: 0 <= j < k ==> t[k].1 < t[j].1
    decreases |t| - i
  {
    if i == |t| then best
    else MinScan(t, i + 1, if t[i].1 < t[best].1 then i else best)
  }

  /** The shift of least cost factor in the table, the first one among equals,
      with its factor looked up in the table. */
  function SelectShift(t: ShiftTable): (r: (string, real))
    requires |t| > 0 && DistinctKeys(t)
    ensures Lookup(t, r.0) == Some(r.1)
    ensures forall j :: 0 <= j < |t| ==> r.1 <= t[j].1
    ensures exists k :: 0 <= k < |t| && t[k] == r && forall j :: 0 <= j < k ==> r.1 < t[j].1
  {
    var k := MinScan(t, 1, 0);
    var name := t[k].0;
    (name, Lookup(t, name).value)
  }

  /** selection_working_shift: the standard day shift, at factor 1.0, wins
      its tie with the other 1.0 shift because it comes first. */
  function SelectWorkingShift(): (r: (string, real))
    ensures r == ("08h00-12h00 / 14h00-18h00", 1.0)
  {
    assert DistinctKeys(Shifts) by {
      // The three names already differ in their second character.
      assert Shifts[0].0[1] != Shifts[1].0[1] && Shifts[0].0[1] != Shifts[2].0[1] && Shifts[1].0[1] != Shifts[2].0[1];
    }
    SelectShift(Shifts)
  }

  /** The docker cost adjusted by the recommended shift's cost factor. A
      factor of 1.0 leaves the cost as it is, and a surcharge factor never
      lowers a non-negative cost. */
  function ShiftAdjustedCost(labourCost: real, factor: real): (r: real)
    ensures factor == 1.0 ==> r == labourCost
    ensures labourCost >= 0.0 && factor >= 0.0 ==> r >= 0.0
    ensures labourCost >= 0.0 && factor >= 1.0 ==> r >= labourCost
  {
    assert labourCost * factor == labourCost + labourCost * (factor - 1.0);
    assert labourCost >= 0.0 && factor >= 0.0 ==> labourCost * factor >= 0.0 * factor;
    labourCost * factor
  }

  /** Applying the shift factor to the docker cost is applying it to the
      dockers' hourly rate. */
  lemma ShiftFactorScalesRate(dockers: int, duration: real, hourlyRate: real, factor: real)
    ensures ShiftAdjustedCost(LabourCost(dockers, duration, hourlyRate), factor)
         == LabourCost(dockers, duration, hourlyRate * factor)
  {
  }
}
