/** What the calculate button computes from the form: the durations, the
    docker head-count, the docker and equipment costs, the recommended shift
    and the docker cost adjusted by that shift's factor. */
module Plan {
  import opened Outcomes
  import opened Sums
  import opened Escale

  /** The values the form collects: counts of vessels and holds, the two
      hourly rates, and one entry per hold in each list. */
  datatype Form = Form(
    vessels: int,
    holds: int,
    dockerRate: real,
    equipmentRate: real,
    tonnage: seq<real>,
    unloadingRate: seq<real>,
    dockersPerHold: seq<int>,
    unitsPerHold: seq<int>)

  /** The bounds the form's widgets enforce, and one list entry per hold, as
      the collecting loop appends one value per hold to each list. */
  predicate WidgetBounds(f: Form)
  {
    && f.vessels >= 1
    && f.holds >= 1
    && f.dockerRate >= 0.0
    && f.equipmentRate >= 0.0
    && |f.tonnage| == f.holds
    && |f.unloadingRate| == f.holds
    && |f.dockersPerHold| == f.holds
    && |f.unitsPerHold| == f.holds
    && (forall i :: 0 <= i < f.holds ==> f.tonnage[i] >= 0.0)
    && (forall i :: 0 <= i < f.holds ==> f.unloadingRate[i] >= 1.0)
    && (forall i :: 0 <= i < f.holds ==> f.dockersPerHold[i] >= 1)
    && (forall i :: 0 <= i < f.holds ==> f.unitsPerHold[i] >= 0)
  }

  datatype Report = Report(
    durations: seq<real>,
    totalDuration: real,
    dockers: int,
    labourCost: real,
    equipmentCost: real,
    shift: string,
    shiftFactor: real,
    adjustedLabourCost: real)

  /** The button's computation, in the order the source runs it. */
  function Calculate(f: Form): (r: Outcome<Report>)
    ensures r.Returns? ==> r.value.totalDuration == Sum(r.value.durations)
    ensures r.Returns? ==> r.value.shift == "08h00-12h00 / 14h00-18h00"
    ensures r.Returns? ==> r.value.adjustedLabourCost == r.value.labourCost
    ensures r.Returns? ==> r.value.dockers == SumInt(f.dockersPerHold) * f.vessels
  {
    match StayDuration(f.tonnage, f.unloadingRate, f.holds)
    case IndexError => IndexError
    case Returns((durations, total)) =>
      var dockers := DockerCount(f.holds, f.dockersPerHold, f.vessels);
      var labour := LabourCost(dockers, total, f.dockerRate);
      match EquipmentCost(f.unitsPerHold, durations, f.equipmentRate)
      case IndexError => IndexError
      case Returns(equipment) =>
        var (shift, factor) := SelectWorkingShift();
        Returns(Report(durations, total, dockers, labour, equipment, shift, factor,
                       ShiftAdjustedCost(labour, factor)))
  }

  /** Whatever the form lets through, the computation raises nothing, gives
      one duration per hold, and every quantity it reports is non-negative;
      every vessel gets at least one docker per hold. */
  lemma CalculateWithinWidgetBounds(f: Form)
    requires WidgetBounds(f)
    ensures Calculate(f).Returns?
    ensures |Calculate(f).value.durations| == f.holds
    ensures forall i :: 0 <= i < f.holds ==> Calculate(f).value.durations[i] >= 0.0
    ensures Calculate(f).value.totalDuration >= 0.0
    ensures Calculate(f).value.dockers >= f.holds * f.vessels
    ensures Calculate(f).value.labourCost >= 0.0
    ensures Calculate(f).value.equipmentCost >= 0.0
    ensures Calculate(f).value.adjustedLabourCost >= 0.0
  {
    assert Readable(f.tonnage, f.unloadingRate, f.holds);
    var sd := StayDuration(f.tonnage, f.unloadingRate, f.holds);
    StayDurationNonNegative(f.tonnage, f.unloadingRate, f.holds);
    DockerCountAtLeastOnePerHold(f.holds, f.dockersPerHold, f.vessels);
    EquipmentCostNonNegative(f.unitsPerHold, sd.value.0, f.equipmentRate);
  }
}
