# Port-call planning functions of escale_app.py

This project models the planning core of a small port-call ("escale")
calculator. A vessel's holds ("cales") each carry a tonnage and an unloading
rate. From these the calculator derives:

- how long each hold takes to unload, and how long the call takes in all;
- how many dockers the call needs across all vessels in port;
- what the dockers and the equipment (bulldozers and the like) cost;
- which working shift it recommends, and the docker cost adjusted by that
  shift's cost factor.

The five functions at the top of `escale_app.py` are modelled one to one in
module `Escale`. The button handler that chains them (lines 53-59) is module
`Plan`. Python's `sum` is in module `Sums`. The one exception the code can
raise, an `IndexError` when a list is shorter than the hold count, is the
`IndexError` case of the `Outcome` datatype in module `Outcomes`.

Modelling choices:
- Python floats are exact `real`s. Head-counts, equipment units and counts are `int`s.
- The comprehension at line 7 reads the rate of a hold first. It reads the tonnage only when that rate is positive. So a short tonnage list raises only if an unread hold has a positive rate. `Escale.Readable` states exactly this.
- The shift table is a Python dict, modelled as a sequence of (name, factor) pairs in insertion order with distinct names.
- `min(shifts, key=shifts.get)` keeps the first entry and replaces it only on a strictly smaller factor. So among equal factors the earliest entry wins.

## Model

| member | source | states |
|---|---|---|
| `Escale.HoldDurations` | escale_app.py:7 | the comprehension, evaluated hold by hold, raises exactly when a rate, or the tonnage of a hold with positive rate, is missing; otherwise it gives one entry per hold, equal to tonnage/rate for a positive rate and 0 otherwise |
| `Escale.StayDuration` | escale_app.py:6-9 | one duration per hold (none for a non-positive hold count), each tonnage/rate or 0 for a non-positive rate; the total is the sum of the durations; raises exactly when the lists are too short to be read |
| `Escale.StayDurationNoHolds` | escale_app.py:8 | with no holds the durations are empty and the total is 0 |
| `Escale.StayDurationRoundTrip` | escale_app.py:7 | a hold's duration times its positive rate gives back its tonnage; a hold with a non-positive rate contributes exactly 0 |
| `Escale.StayDurationNonNegative` | escale_app.py:7-8 | non-negative tonnages give non-negative per-hold durations and a non-negative total |
| `Escale.StayDurationZeroIff` | escale_app.py:7-8 | with positive rates and non-negative tonnages, the total is 0 exactly when every hold is empty |
| `Escale.StayDurationTwoHolds` | escale_app.py:6-9 | 1000 t at 100 t/h and 500 t at 50 t/h give durations [10, 10] and a total of 20 |
| `Escale.DockerCount` | escale_app.py:11-12 | the head-count is the sum of dockers per hold times the number of vessels, 0 for an empty list, and does not depend on the hold count |
| `Escale.DockerCountAddHold` | escale_app.py:12 | adding a hold adds its dockers once per vessel |
| `Escale.DockerCountAtLeastOnePerHold` | escale_app.py:12 | when each hold has at least one docker, the head-count is at least holds times vessels |
| `Escale.LabourCost` | escale_app.py:14-15 | dockers × hourly rate × duration when both the head-count and the duration are positive, 0 otherwise; never negative for a non-negative rate |
| `Escale.LabourCostMonotone` | escale_app.py:15 | at a non-negative rate a longer call never costs less in labour |
| `Escale.EquipmentCost` | escale_app.py:17-18 | an empty equipment list costs 0 whatever the durations; otherwise the cost raises exactly when the list is shorter than the durations |
| `Escale.EquipmentSumFactors` | escale_app.py:18 | the weighted sum over the first k holds is the hourly rate times their equipment-hours |
| `Escale.EquipmentCostIsRateTimesHours` | escale_app.py:18 | a non-empty list long enough gives the hourly rate times the sum over holds of units × duration |
| `Escale.EquipmentSumNonNegative` | escale_app.py:18 | the weighted sum over the first k holds is non-negative for non-negative units, rate and durations |
| `Escale.EquipmentCostNonNegative` | escale_app.py:18 | non-negative units, rate and durations give a non-negative equipment cost |
| `Escale.EquipmentSumPrefix` | escale_app.py:18 | units listed beyond the first k holds do not change the weighted sum over them |
| `Escale.EquipmentCostIgnoresExtraUnits` | escale_app.py:18 | units listed for holds beyond the last duration are never charged |
| `Escale.Lookup` | escale_app.py:26 | a key is found exactly when the table holds it, and with distinct keys the value found is the one stored under it |
| `Escale.MinScan` | escale_app.py:26 | the left-to-right scan of `min` with a key ends on an entry whose factor is at most every factor and strictly below every earlier entry's factor |
| `Escale.SelectShift` | escale_app.py:20-26 | the selected name is a key of the table, its factor is the value stored under it, that factor is at most every factor, and every earlier entry has a strictly larger factor |
| `Escale.SelectWorkingShift` | escale_app.py:20-26 | the recommended shift is "08h00-12h00 / 14h00-18h00" at factor 1.0, winning its tie with the second 1.0 shift by coming first |
| `Escale.ShiftAdjustedCost` | escale_app.py:59 | a factor of 1.0 leaves the docker cost unchanged; a non-negative cost and factor give a non-negative adjusted cost; a factor of at least 1.0 never lowers a non-negative cost |
| `Escale.ShiftFactorScalesRate` | escale_app.py:59 | applying the shift factor to the docker cost equals applying it to the dockers' hourly rate |
| `Plan.Calculate` | escale_app.py:53-59 | the reported total is the sum of the durations, the head-count is the sum of dockers times vessels, the shift is the standard day shift, and the shift-adjusted docker cost equals the unadjusted one |
| `Plan.CalculateWithinWidgetBounds` | escale_app.py:38-59 | for any input the form's widgets admit, nothing raises, there is one duration per hold, every duration and cost is non-negative, and every vessel gets at least one docker per hold |

## Left out

- The Streamlit page (title, number and text inputs, button, result display and data table, lines 36-52 and 60-79): user-interface input and output. The widget minima and the one-entry-per-hold lists the collecting loop builds are modelled only as the predicate `Plan.WidgetBounds`.
- The vessel names and cargo types collected by the form: they reach only the display, not any computation.
- `afficher_schema_navire` (lines 28-34): chart rendering only.
- IEEE-754 floating-point rounding: quantities are exact reals.
- Exceptions other than `IndexError`: a `TypeError` on non-numeric list entries cannot arise from the numeric widgets and is not modelled.
- `min` over an empty dict raises `ValueError`: the shift table is a fixed non-empty literal, so `Escale.SelectShift` requires a non-empty table instead of modelling that error.
- `Escale.SelectShift` ranks entries by their stored factor. The source ranks them by `shifts.get`, which gives that same factor for every key of the table.
