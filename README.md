# HEMS gateway and DEMKit composer: a Dafny model

The repository connects a home-automation hub (Home Assistant) to the DEMKit
household energy simulator through a Rust gateway, hems-core. The simulator
reports power as complex numbers. It sends them either as strings ("__" plus
Python's rendering) or as bare numbers. The gateway decodes them and turns
each into a watt figure with the rule `norm * signum(re)`, clamped where the
endpoint needs it. On top of that it serves battery, thermal and
time-shiftable device views. It also relays the job protocol of the
dishwasher and washing machine, builds the entities it registers with the
simulator's composer, and keeps a load-override table for hub devices.

The simulator side decodes the entities the gateway sends. It holds them in a
composer whose lifecycle is INACTIVE → LOADED → ACTIVE. A REST-driven host
can be paused, resumed and fast-forwarded. The hub integration converts the
gateway's battery and solar views into its own readings.

This project models that logic:

- Backend and hub replies are parameters (`Reply`, `HubReply`, `ComposerReply`).
  Each handler returns the calls it makes together with its result, so
  "nothing is sent before the check" is a statement about a value.
- `f64` is `real`. `Complex::norm` is an abstract modulus (`Demkit.Norm`).
- `f64::signum` gives signum(+0.0) = 1, so a purely reactive reading counts
  as import (`Meter.ReactiveCountsAsImport`).
- A Rust panic (`expect`, `unwrap`, `input[2..]` on a short string) becomes a
  precondition.
- The imperative parts are imperative Dafny:
  - the two serde visitor loops (`VisitJobSeq`, `VisitCurrentJob`);
  - the in-place rewrite of `_replace_complex`;
  - the shared `LOAD_MAP`, a class over a `map`;
  - `ModelRestComposer` and `RestHost`, classes whose methods update their fields.
- Python entity objects are class references, so `list.remove` finds them by
  identity, as Python does for objects without `__eq__`.

Modules, one per source file. Helpers: `Wrappers`, `Text` (decimal
rendering, ASCII lower-casing, `{name}-House-{id}`), `Json`, `Http`.

| module | source |
|---|---|
| Demkit | hems-core/src/api/demkit.rs |
| Meter | hems-core/src/api/demkit/meter.rs |
| Devices | hems-core/src/api/demkit/devices.rs |
| BatteryApi | hems-core/src/api/demkit/battery.rs |
| BatteryResource | hems-core/src/resources/devices/battery.rs |
| ThermalApi | hems-core/src/api/demkit/thermal.rs |
| ThermalResource | hems-core/src/resources/devices/thermal.rs |
| TimeShiftersApi | hems-core/src/api/demkit/timeshifters.rs |
| TimeShiftersResource | hems-core/src/resources/devices/timeshifters.rs |
| HaEntity | hems-core/src/api/ha/entity.rs, hems-core/src/api/ha.rs |
| LoadMap | hems-core/src/api/demkit/ha_entity.rs |
| Env | hems-core/src/api/demkit/env.rs |
| PyComplex | demkit/demkit/components/util/Complex.py |
| EntityDeserializer | demkit/demkit/components/util/entities/EntityDeserializer.py |
| Composer | demkit/demkit/components/util/ModelRestComposer.py |
| RestHost | demkit/demkit/components/hosts/restHost.py |
| HaBattery | ha/config/custom_components/demkit/demkit/battery.py |
| HaSolar | ha/config/custom_components/demkit/demkit/solar.py |

## Model

| member | source | states |
|---|---|---|
| Demkit.DecodeCommodity | hems-core/src/api/demkit.rs:36-43 | The untagged enum dispatches on the JSON shape alone. A string becomes `Complex` and a number becomes `Real`. Decoding succeeds exactly for strings and numbers. |
| Demkit.ParseComplexStr | hems-core/src/api/demkit.rs:65-74 | A bare number `x` is `(x, 0)`. A string is parsed with its first two characters dropped and every parenthesis deleted. The only error is `ParseError`, and only for strings. Text shorter than two characters is excluded, because the slice panics on it. |
| Demkit.RemoveChar | hems-core/src/api/demkit.rs:70 | `str::replace(c, "")`: no `c` remains, every other character is present exactly when it was before, and text without `c` is unchanged. |
| Demkit.StripParens | hems-core/src/api/demkit.rs:70 | The result has no '(' or ')'. Every other character is present exactly when it was before. Text without parentheses is unchanged. |
| Demkit.StripParensWrapped | hems-core/src/api/demkit.rs:70 | Parentheses are removed wherever they are: `(t)` strips to the same text as `t`. |
| Demkit.StripParensIdempotent | hems-core/src/api/demkit.rs:70 | Stripping twice is stripping once. |
| Demkit.ParseComplexLiteral | hems-core/src/api/demkit.rs:70 | num-complex `from_str`, left abstract: empty text is not a number. |
| Demkit.RealNeverFails | hems-core/src/api/demkit.rs:72 | A bare number never fails to decode, keeps its value as the real part, and has imaginary part 0. |
| Demkit.MarkerIsDropped | hems-core/src/api/demkit.rs:69-71 | The two dropped characters are the simulator's "__" marker. The text parsed is the rest without parentheses, and the string decodes iff that text is a literal. |
| Demkit.WireDispatchExample | hems-core/src/api/demkit.rs:36-43 | Concrete dispatch: 2.5 is `Real(2.5)` and "__(1+2j)" is `Complex`. A boolean is refused, and so is null. |
| Demkit.Norm | hems-core/src/api/demkit/meter.rs:14 | The modulus is non-negative and lies between max(\|re\|,\|im\|) and \|re\|+\|im\|. It is zero iff both parts are zero, and it is the absolute value on either axis. |
| Demkit.Signum | hems-core/src/api/demkit/meter.rs:14 | `f64::signum` is ±1, and it is 1 exactly for re ≥ 0, +0.0 included. |
| Demkit.SignedPower | hems-core/src/api/demkit/meter.rs:14 | `norm * signum(re)` is the modulus for re ≥ 0 and its negation for re < 0. It is negative iff re < 0, and positive iff re > 0, or re = 0 with im ≠ 0. |
| Meter.ImportValue | hems-core/src/api/demkit/meter.rs:14-17 | Import is never negative. It is the modulus when re ≥ 0 and 0 when re < 0. |
| Meter.MeterReadingCall | hems-core/src/api/demkit/meter.rs:6 | Both functions read the `consumption` variable of `SmartMeter-House-{id}` (meter.rs:6 and meter.rs:25 build the same URL). |
| Meter.MeterReadingCallInjective | hems-core/src/api/demkit/meter.rs:6 | The meter read names its house: equal reads mean the same house. |
| Meter.ExportValue | hems-core/src/api/demkit/meter.rs:33-36 | Export is never negative. It is the modulus when re < 0 and 0 when re ≥ 0. |
| Meter.ImportExportSplit | hems-core/src/api/demkit/meter.rs:14-36 | For one reading, import or export is 0, and import + export is the modulus. |
| Meter.ReactiveCountsAsImport | hems-core/src/api/demkit/meter.rs:14 | A purely reactive reading (re = +0, im ≠ 0) is all import, \|im\| > 0, and no export. |
| Meter.EnergyImport | hems-core/src/api/demkit/meter.rs:3-20 | The one call is the read of `SmartMeter-House-{id}/consumption`. A transport failure passes through. A decoded reading succeeds iff ELECTRICITY parses, and gives the import value in "W". The only other error is `ParseError`. |
| Meter.EnergyExport | hems-core/src/api/demkit/meter.rs:22-39 | The one call is the read of `SmartMeter-House-{id}/consumption`. A transport failure passes through. A decoded reading succeeds iff ELECTRICITY parses, and gives the export value in "W". The only other error is `ParseError`. |
| Meter.MeterMeasurement | hems-core/src/api/demkit/meter.rs:3-39 | A transport failure is `ReqwestError`, and a parse failure is `ParseError`. Otherwise the result is the import or export value, in "W", never negative. A missing ELECTRICITY field is excluded: `expect` panics on it. |
| Meter.ImportAndExportAgree | hems-core/src/api/demkit/meter.rs:3-39 | For one house, import and export make the same meter read. Over the same reply, import and export succeed together. At most one of them is non-zero, and they add up to the reading's modulus. |
| Devices.DevicePropertyCall | hems-core/src/api/demkit/devices.rs:43 | A property read addresses `/get/{device}/{property}`. |
| Devices.DeviceElectricity | hems-core/src/api/demkit/devices.rs:14-35 | An absent ELECTRICITY is 0 W. A present one fails iff it does not parse. The value is never negative, in "W". Transport errors pass through. |
| Devices.DeviceMatchesMeterImport | hems-core/src/api/demkit/devices.rs:20-29 | When ELECTRICITY is present, a device's reading is exactly the meter's import rule. |
| Devices.HouseIdUnused | hems-core/src/api/demkit/devices.rs:5-12 | `get_device_consumption` ignores its house id: the call depends only on the device name. |
| BatteryApi.GetBatteryProperties | hems-core/src/api/demkit/battery.rs:39-52 | A successful result is the decoded record, with `electricity_consumption` set to the parsed ELECTRICITY. It succeeds iff that reading parses. Errors are transport failures or `ParseError`. |
| BatteryApi.SocSegment | hems-core/src/api/demkit/battery.rs:57-60 | The target `None` is sent as "None", and `Some(n)` as the decimal form of n, which starts with a digit. |
| BatteryApi.SocSegmentInjective | hems-core/src/api/demkit/battery.rs:57-62 | Different targets are sent as different path segments. |
| BatteryApi.SetTargetCalls | hems-core/src/api/demkit/battery.rs:54-72 | The set call is made first. The properties are fetched again iff the simulator answered `true`. Every call addresses `Battery-House-{id}`. |
| BatteryApi.SetTargetSoc | hems-core/src/api/demkit/battery.rs:66-72 | `false` gives `DemkitError("Failed to set target SoC")`. `true` gives the fresh `get_battery_properties` result. Transport errors pass through. |
| BatteryResource.Classify | hems-core/src/resources/devices/battery.rs:53-59 | Charging iff the signed power is > 100, Discharging iff < −100, Idle iff within [−100, 100]. The three are exhaustive and exclusive. |
| BatteryResource.LastOrZero | hems-core/src/resources/devices/battery.rs:63 | The last charging power, or 0 for an empty table. |
| BatteryResource.FirstOrZero | hems-core/src/resources/devices/battery.rs:64 | The first charging power, or 0 for an empty table. |
| BatteryResource.FromProperties | hems-core/src/resources/devices/battery.rs:48-73 | Capacity, state of charge and target are copied. The status classifies `norm * signum(re)`. The consumption is the unsigned modulus `norm`, so it is ≥ 0 even while discharging. `max_charge` is the last entry of the power table and `max_discharge` minus its first, each 0 for an empty table. |
| BatteryResource.StatusAndConsumption | hems-core/src/resources/devices/battery.rs:51-68 | Charging reports the signed power as consumption, Discharging its negation, and Idle at most 100 W. |
| BatteryResource.PowerLimits | hems-core/src/resources/devices/battery.rs:63-64 | For an ascending, non-empty power table, every entry lies in [−max_discharge, max_charge], and both bounds are entries. |
| BatteryResource.EmptyPowerTable | hems-core/src/resources/devices/battery.rs:63-64 | An empty power table gives 0 for both limits. |
| BatteryResource.GetById | hems-core/src/resources/devices/battery.rs:90-101 | The answer is 500 iff fetching the properties fails. Otherwise it is 200 with the derived view, and never 400. |
| ThermalApi.GetCurrentZoneTemp | hems-core/src/api/demkit/thermal.rs:25-40 | `heat_consumption` is parsed from the HEAT commodity (not ELECTRICITY), and the rest of the record is copied. The read succeeds iff HEAT parses. A missing HEAT is excluded: `expect` panics on it. |
| ThermalApi.GetThermostatProperties | hems-core/src/api/demkit/thermal.rs:42-55 | The decoded record as it is, or the transport error. |
| ThermalApi.Band | hems-core/src/api/demkit/thermal.rs:57-63 | The requested band is 2·DELTA_TEMP = 2 wide, and its mean is the target. |
| ThermalApi.AcceptedRange | hems-core/src/api/demkit/thermal.rs:65 | The guard `min < 0 \|\| max > 35` accepts exactly the targets 1 ≤ t ≤ 34. |
| ThermalApi.SetCalls | hems-core/src/api/demkit/thermal.rs:69-92 | Four writes in a fixed order to this house's thermostat: heating setpoint and temperatureMin get t−1, then cooling setpoint and temperatureMax get t+1. |
| ThermalApi.SendInOrder | hems-core/src/api/demkit/thermal.rs:89-94 | The calls made are a prefix of the list, and the result passes iff every send went through. A failure stops at the first failed send and reports it; all earlier sends passed. |
| ThermalApi.SetTargetTemp | hems-core/src/api/demkit/thermal.rs:59-95 | A rejected target makes no call, and its message quotes t+1 (the band's upper end), not t. An accepted target sends the four writes in order. |
| ThermalApi.SuccessfulSetWritesBand | hems-core/src/api/demkit/thermal.rs:62-94 | When every send goes through, exactly the four band writes are made and the call succeeds. |
| ThermalApi.SetExamples | hems-core/src/api/demkit/thermal.rs:62-66 | 20 °C is sent as 19 and 21. 35 °C is refused without a call, and 0.5 °C is refused. |
| ThermalResource.ToThermalInfo | hems-core/src/resources/devices/thermal.rs:56-63 | Temperature and heating power are copied from the zone. The target is the mean (min + max) / 2 of the thermostat's band, so it lies inside the band. Consumption is the modulus `norm` of the heat reading: ≥ 0, and 0 iff there is no heat. |
| ThermalResource.GetFor | hems-core/src/resources/devices/thermal.rs:43-66 | The zone is read first; a failure there answers 500 with no thermostat read. Otherwise the thermostat is read, and the answer is 200 iff that read succeeds, with the assembled view. |
| ThermalResource.GetByIdAsWritten | hems-core/src/resources/devices/thermal.rs:44-51 | As written: both reads address the route's thermal id, not its house id. |
| ThermalResource.GetById | hems-core/src/resources/devices/thermal.rs:43-66 | Corrected: both reads address the route's house, the one `set_target_temp` writes. |
| ThermalResource.SetTargetTemp | hems-core/src/resources/devices/thermal.rs:83-91 | It makes the same calls as the API function and ignores the thermal id. It answers 200 iff the API call succeeded, echoing the requested temperature; otherwise 500 with the API's error. |
| ThermalResource.AsWrittenReadsOtherThermostat | hems-core/src/resources/devices/thermal.rs:44-51 | As written, whenever house id ≠ thermal id, the thermostat `get_by_id` reads is not the one `set_target_temp` writes. |
| ThermalResource.AsWrittenExample | hems-core/src/resources/devices/thermal.rs:44-51 | House 1, thermal device 0: the write goes to "Thermostat-House-1" and the read to "Thermostat-House-0". |
| ThermalResource.SetThenGet | hems-core/src/resources/devices/thermal.rs:56 | Corrected get: after a successful set of t, the thermostat read is the one written, and the reported target is t again. |
| ThermalResource.RefusedTargetSendsNothing | hems-core/src/resources/devices/thermal.rs:85-88 | A target outside [1, 34] makes no simulator call and answers 500. |
| TimeShiftersApi.DecodeJobFields | hems-core/src/api/demkit/timeshifters.rs:12-17 | Derived `visit_map` of `Job`, entry by entry: a field already read before the remaining entries keeps its value in the result. |
| TimeShiftersApi.DecodeJobFieldsRule | hems-core/src/api/demkit/timeshifters.rs:12-17 | Decoding succeeds iff each field still to be read occurs exactly once, no field already read occurs again, and every time given is a u64. Unknown keys are skipped. The job carries the value given for each field. |
| TimeShiftersApi.DecodeJob | hems-core/src/api/demkit/timeshifters.rs:12-17 | An object decodes iff `startTime` and `endTime` each occur exactly once with a u64 value, and the job carries those values. An array (serde's sequence form) decodes iff it is exactly two u64s, start then end. Any other JSON value is an error. |
| TimeShiftersApi.JobFormExamples | hems-core/src/api/demkit/timeshifters.rs:40 | The element `[1, [10, 20]]` decodes to the job (10, 20). An unknown key is skipped. A repeated `startTime`, a missing `startTime` and a one-element array are errors. |
| TimeShiftersApi.DecodeJobPair | hems-core/src/api/demkit/timeshifters.rs:40 | An element decodes only as a two-element array whose first entry is a u64; it yields the decoded job. |
| TimeShiftersApi.PairDropsId | hems-core/src/api/demkit/timeshifters.rs:40-44 | The pair's id is read and dropped; only the job survives. |
| TimeShiftersApi.DecodeJobItems | hems-core/src/api/demkit/timeshifters.rs:38-47 | A decoded list has one job per element. A failure is the error of some element that is not a valid pair. |
| TimeShiftersApi.DecodeJobList | hems-core/src/api/demkit/timeshifters.rs:19-52 | `deserialize_jobs` succeeds iff the value is an array whose every element is a valid `(id, job)` pair. It then yields that element's job at every index. |
| TimeShiftersApi.VisitJobSeq | hems-core/src/api/demkit/timeshifters.rs:34-48 | The `while let` loop that pushes one job per element computes exactly the list decoding, failing at the first bad element. |
| TimeShiftersApi.JobItemsShape | hems-core/src/api/demkit/timeshifters.rs:38-47 | The list decodes iff every element is an `(integer, job)` pair. It then keeps length and order, each entry being that element's job. |
| TimeShiftersApi.JobRoundTrip | hems-core/src/api/demkit/timeshifters.rs:12-17 | Decoding inverts the simulator's `{startTime, endTime}` encoding of a job. |
| TimeShiftersApi.JobListRoundTrip | hems-core/src/api/demkit/timeshifters.rs:19-52 | A list of `(id, job)` pairs decodes to the jobs in order, with the ids dropped. |
| TimeShiftersApi.FinishCurrentJob | hems-core/src/api/demkit/timeshifters.rs:90-95 | Neither time gives `None`. Only the end time gives "startTime field not found", and only the start time gives "endTime field not found". Both give `Some(Job(start, end))`. |
| TimeShiftersApi.DecodeCurrentJob | hems-core/src/api/demkit/timeshifters.rs:55-100 | Only an object is accepted. A time that is not a u64 is an error. Otherwise the result is the final match applied to the last value of each time key. |
| TimeShiftersApi.VisitCurrentJob | hems-core/src/api/demkit/timeshifters.rs:68-96 | The key loop that overwrites the two local options computes exactly the current-job decoding. |
| TimeShiftersApi.ScanTimesLastWins | hems-core/src/api/demkit/timeshifters.rs:76-88 | The key loop fails iff some time value is not a u64. Otherwise each time is the last value given for its key. |
| TimeShiftersApi.CurrentJobRule | hems-core/src/api/demkit/timeshifters.rs:76-95 | With well-typed times: an object with neither key (empty, or only unknown keys) is `None`, and one key alone is the matching error. Both keys give the job from their last values. A time that is not a u64 is an error. |
| TimeShiftersApi.CurrentJobExamples | hems-core/src/api/demkit/timeshifters.rs:90-95 | `{}` and `{progress: 3}` are `None`. One time alone is its error. A repeated startTime keeps its last value. null is refused. |
| TimeShiftersApi.CurrentJobRoundTrip | hems-core/src/api/demkit/timeshifters.rs:68-96 | A job the simulator reports as current decodes to `Some` of that job. |
| TimeShiftersApi.DeviceName | hems-core/src/api/demkit/timeshifters.rs:108-113 | Each kind is named "DishWasher" or "WashingMachine". |
| TimeShiftersApi.TryFromName | hems-core/src/api/demkit/timeshifters.rs:116-126 | It accepts exactly "DishWasher" and "WashingMachine" (case-sensitive), returning the kind of that name. Anything else is "Invalid TimeShifter name". |
| TimeShiftersApi.NameRoundTrip | hems-core/src/api/demkit/timeshifters.rs:108-125 | `try_from(get_device_name(k)) == k`. |
| TimeShiftersApi.EntityIdInjective | hems-core/src/api/demkit/timeshifters.rs:161-162 | `{kind}-House-{id}` names exactly one kind in one house. |
| TimeShiftersApi.GetProperties | hems-core/src/api/demkit/timeshifters.rs:155-187 | Name, availability, job index and progress are copied. The current job and the job list are the custom decodings. The profile has one parsed sample per string, and the electricity reading is parsed. A decoded reply succeeds iff the current job, the job list and ELECTRICITY all decode. A current-job or job-list failure is `ReqwestError` carrying that decoder's error, checked in that order, and an ELECTRICITY failure is `ParseError`. Parse panics (`unwrap`, `expect`) are excluded. |
| TimeShiftersApi.ScheduleCalls | hems-core/src/api/demkit/timeshifters.rs:211-221 | The schedule call comes first. The clock is read iff the reply decoded, whatever success it reports. |
| TimeShiftersApi.ScheduleJobResult | hems-core/src/api/demkit/timeshifters.rs:223-232 | Success iff the simulator said true. Then start = now + delay, end − start = duration and start ≥ now. Otherwise the error carries the backend's message after "Failed to schedule job: ". |
| TimeShiftersApi.ScheduleExample | hems-core/src/api/demkit/timeshifters.rs:224-227 | Delay 100 and duration 1800 at clock 5000 give the job (5100, 6900). |
| TimeShiftersApi.CancelJobResult | hems-core/src/api/demkit/timeshifters.rs:248-251 | Success iff the simulator said true. Otherwise the error is `DemkitError("Failed to cancel job: " + message)`, with the backend's message verbatim. |
| TimeShiftersApi.ForceShutdownResult | hems-core/src/api/demkit/timeshifters.rs:266-269 | Success iff the simulator said true; `false` gives the fixed "Failed to force shutdown", with no backend text. |
| TimeShiftersApi.CallsAddressOneDevice | hems-core/src/api/demkit/timeshifters.rs:161-260 | Properties, schedule, cancel and shutdown calls for one device address the same entity id, and that id names no other device of any house. |
| TimeShiftersResource.Progress | hems-core/src/resources/devices/timeshifters.rs:72-80 | progress × profile length = job progress × 100. An empty profile has no finite value (null). |
| TimeShiftersResource.ProgressIsPercentage | hems-core/src/resources/devices/timeshifters.rs:80 | Job progress between 0 and the profile length is reported between 0 and 100, and a finished job as exactly 100. |
| TimeShiftersResource.ProgressExample | hems-core/src/resources/devices/timeshifters.rs:80 | Job progress 45 of a 180-sample profile is 25 percent. |
| TimeShiftersResource.ToStatus | hems-core/src/resources/devices/timeshifters.rs:74-90 | `is_active` = available. The active job is `None` unless the device is available, and then it is the current job. Index and scheduled jobs pass through unchanged. Consumption is the modulus `norm` of the electricity reading, in W: never negative, and 0 exactly when the device draws nothing. The profile has the same length and the same re/im at every index. |
| TimeShiftersResource.InactiveHasNoJob | hems-core/src/resources/devices/timeshifters.rs:78 | An unavailable device is inactive and reports no job. |
| TimeShiftersResource.GetById | hems-core/src/resources/devices/timeshifters.rs:58-93 | An unknown kind answers 400 with no call. Otherwise one properties call: 500 iff it fails, or 200 with the assembled status. |
| TimeShiftersResource.AddById | hems-core/src/resources/devices/timeshifters.rs:111-120 | The parameters go to `add_timeshifter`, renamed for the house. The answer is 200 "… added successfully" with the path's name iff the composer accepted, otherwise 500. |
| TimeShiftersResource.RemoveById | hems-core/src/resources/devices/timeshifters.rs:136-143 | Any name is accepted and deleted under `{name}-House-{id}`. The answer is 200 iff the composer accepted, otherwise 500. |
| TimeShiftersResource.AddThenRemove | hems-core/src/resources/devices/timeshifters.rs:111-143 | A timeshifter added under name n is the one a removal of n from the same house deletes. |
| TimeShiftersResource.ScheduleById | hems-core/src/resources/devices/timeshifters.rs:160-172 | An unknown kind answers 400 with no call. Otherwise the schedule calls are made, the answer is 200 with the synthesised job iff scheduling succeeded, and 500 with its error otherwise. |
| TimeShiftersResource.CancelById | hems-core/src/resources/devices/timeshifters.rs:189-201 | An unknown kind answers 400 with no call. Otherwise one cancel call: 200 "Job {id} cancelled for {name}" iff it succeeded, 500 otherwise. |
| TimeShiftersResource.ShutdownById | hems-core/src/resources/devices/timeshifters.rs:217-229 | An unknown kind answers 400 with no call. Otherwise one shutdown call: 200 "Shutdown successful for {name}" iff it succeeded, 500 otherwise. |
| TimeShiftersResource.NameGuardsEveryHandler | hems-core/src/resources/devices/timeshifters.rs:163-223 | An invalid name is answered with 400 by schedule, cancel and shutdown alike. A valid one makes each of them address `{name}-House-{id}`. |
| HaEntity.ParsesAsF64 | hems-core/src/api/ha/entity.rs:43 | `parse::<f64>` left abstract: empty text is not a number. |
| HaEntity.StatePath | hems-core/src/api/ha/entity.rs:17 | The state URL is `/api/states/` followed by the entity id. |
| HaEntity.StatePathInjective | hems-core/src/api/ha/entity.rs:17 | The state URL names exactly one entity. |
| HaEntity.GetEntityConsumption | hems-core/src/api/ha/entity.rs:15-53 | A non-success status is `HomeAssistantError`. For a mapped entity, its override when the state is "on", otherwise "0". For an unmapped entity, the state as it is if it is a float literal, otherwise `LoadMapError`. The id returned is always the one requested. |
| HaEntity.FailureIgnoresLoadMap | hems-core/src/api/ha/entity.rs:22-28 | Unless the hub answered successfully with a decodable state, the result is an error, whatever the table holds. |
| HaEntity.MappedEntityOutcomes | hems-core/src/api/ha/entity.rs:31-46 | A mapped entity never fails once answered, and reports its override or "0". An unmapped entity with empty state is refused. |
| HaEntity.Domain | hems-core/src/api/ha/entity.rs:108 | The domain is the prefix before the first '.' (all of the id when it has none), and contains no '.'. |
| HaEntity.DomainOfDotted | hems-core/src/api/ha/entity.rs:108 | The domain of "d.rest" is d, and an id without a dot is its own domain. |
| HaEntity.TogglePath | hems-core/src/api/ha/entity.rs:106-110 | The path is `/api/services/{domain}/turn_on` when the requested state is true, `…/turn_off` otherwise. |
| HaEntity.ToggleBody | hems-core/src/api/ha/entity.rs:113-115 | The service call's body is the object `{"entity_id": id}` and nothing else. |
| HaEntity.ToggleOnOffDiffer | hems-core/src/api/ha/entity.rs:106-110 | On and off reach the same domain and differ in the service. |
| HaEntity.ToggleResult | hems-core/src/api/ha/entity.rs:124-137 | A non-success status quotes the error text, or "Unknown error" when it cannot be read. A success status returns the decoded body, and a body that does not decode is `HaReqwestError` with the decoder's detail. A transport failure is `HaReqwestError`. |
| LoadMap.RequestBody | hems-core/src/api/demkit/ha_entity.rs:19 | The body sent to the simulator holds only `entity_id`. |
| LoadMap.AddOutcome | hems-core/src/api/demkit/ha_entity.rs:21-25 | Success iff the simulator accepted. A non-success status is "Failed to add device". |
| LoadMap.NextLoadMap | hems-core/src/api/demkit/ha_entity.rs:27-28 | One `add_entity` touches only its own key: no new key besides the entity's, and every other entry is kept. |
| LoadMap.InsertionRule | hems-core/src/api/demkit/ha_entity.rs:23-29 | A failed call, or consumption "-1", leaves the table unchanged. Otherwise the entry is set to the consumption, overwriting any previous one. Every other key is unchanged. |
| LoadMap.LastWriterWins | hems-core/src/api/demkit/ha_entity.rs:28 | Of two successful adds of the same id, the second one's value stays. |
| LoadMap.LoadOverrides.constructor | hems-core/src/api/ha.rs:20-22 | The table starts empty. |
| LoadMap.LoadOverrides.AddEntity | hems-core/src/api/demkit/ha_entity.rs:13-32 | It sends the id-only body and returns the simulator's outcome. The new table is the insertion rule applied to the old one. |
| LoadMap.OverrideIsReported | hems-core/src/api/demkit/ha_entity.rs:27-28 | Across both files, a recorded override is what the hub client reports while the entity is "on", and "0" otherwise. |
| Env.FromComplex | hems-core/src/api/demkit/env.rs:69-76 | `re` and `im` are copied exactly. |
| Env.FromComplexRoundTrip | hems-core/src/api/demkit/env.rs:69-76 | The copy converts back to the same number, and different numbers give different copies. |
| Env.TypeTag | hems-core/src/api/demkit/env.rs:182-196 | Every tag is lower-case. |
| Env.TypeTagInjective | hems-core/src/api/demkit/env.rs:182-196 | The thirteen variants get thirteen distinct tags. |
| Env.ParamsValue | hems-core/src/api/demkit/env.rs:49-157 | The serialised parameters are an object that carries the name exactly once. In the model's entry order the name comes first; `serde_json::to_value` without `preserve_order` sorts the keys instead (for Curt: column, filename, filenameReactive, name, …). |
| Env.NewEntity | hems-core/src/api/demkit/env.rs:181-203 | The entity is the variant's tag together with exactly the serialised parameters. |
| Env.HostName | hems-core/src/api/demkit/env.rs:211 | The host is named "House-{id}". |
| Env.Scoped | hems-core/src/api/demkit/env.rs:279-280 | A caller-named device is renamed `{name}-House-{id}`; nothing but the name changes. |
| Env.RequestEntity | hems-core/src/api/demkit/env.rs:205-502 | Host, weather, sun, battery and solar are sent as "House-{id}", "Weather-House-{id}", "Sun-House-{id}", "Battery-House-{id}" and "PV-House-{id}". The other eight variants are sent under their renamed caller name. |
| Env.ComposerOutcome | hems-core/src/api/demkit/env.rs:216-225 | Success iff the composer answered with a success status. Otherwise the failure is "Failed to {action}: {body}", or the transport error when the body cannot be read. |
| Env.LifecyclePath | hems-core/src/api/demkit/env.rs:504-575 | `set_config`, `load`, `start` and `reset` post under `/composer/`: `config`, `load`, `start`, `reset`. |
| Env.LifecycleOutcome | hems-core/src/api/demkit/env.rs:504-575 | Success iff the composer answered with a success status. A transport failure passes through, and a refusal is "Failed to {set config, load, start, reset}: {body}". |
| Env.LifecycleStepsDistinct | hems-core/src/api/demkit/env.rs:504-575 | Different lifecycle calls use different routes, and their failure messages for the same body differ. |
| Env.RemoveOutcome | hems-core/src/api/demkit/env.rs:576-592 | Success iff the composer answered with a success status. A refusal is "Failed to remove timeshifter: {body}", whatever was removed. |
| Env.AddEntity | hems-core/src/api/demkit/env.rs:205-502 | Each `add_*` sends `{type, entity}` for its entity and reports the composer's outcome under its own action label. |
| Env.RemoveMatchesAdd | hems-core/src/api/demkit/env.rs:579 | `remove_entity(n)` deletes the name a caller-named add of n produced. The fixed-name battery, solar, weather and sun are reached as "Battery", "PV", "Weather" and "Sun". |
| Env.RemovePathInjective | hems-core/src/api/demkit/env.rs:579 | For names of equal length, the removal path determines both the name and the house. |
| Env.HostNotRemovable | hems-core/src/api/demkit/env.rs:579 | No name gives the host's "House-{id}" after the rename, so `remove_entity` cannot reach the host. |
| PyComplex.Replace | demkit/demkit/components/util/Complex.py:20-32 | A complex value becomes "__" + str(value). Lists keep their length, and dicts keep their keys in order. Any other value is unchanged, and no complex number remains. |
| PyComplex.ReplaceComponents | demkit/demkit/components/util/Complex.py:23-30 | Each list element and each dict value is rewritten in its own place. |
| PyComplex.ReplaceFixesComplexFree | demkit/demkit/components/util/Complex.py:20-32 | A value without complex numbers is returned unchanged. |
| PyComplex.ReplaceIdempotent | demkit/demkit/components/util/Complex.py:20-32 | Replacing twice is replacing once. |
| PyComplex.ReplaceInPlace | demkit/demkit/components/util/Complex.py:20-32 | The index loop over lists and the key loop over dicts compute the rewrite. |
| PyComplex.ReplaceComplex | demkit/demkit/components/util/Complex.py:8-18 | The copy is rewritten and returned, and it holds no complex number. |
| PyComplex.SimulatorToGateway | demkit/demkit/components/util/Complex.py:22 | The gateway drops exactly the two marker characters and parses str(c) without its parentheses. When num-complex reads Python's rendering, c comes back. |
| EntityDeserializer.FromDict | demkit/demkit/components/util/entities/EntityDeserializer.py:52-60 | A dict succeeds iff both "type" and "entity" are keys, giving their values. A missing "type" or "entity" raises `ValueError` with its own message. A non-dict is an error. |
| EntityDeserializer.Deserialize | demkit/demkit/components/util/entities/EntityDeserializer.py:63-75 | Success builds the class `entity_types[lower(type)]` from the params dict. An unknown tag raises `ValueError("Unknown entity type: …")`. A non-string tag raises `AttributeError`. from_dict errors pass through. |
| EntityDeserializer.CaseInsensitive | demkit/demkit/components/util/entities/EntityDeserializer.py:66-67 | Case variants of a tag select the same class. |
| EntityDeserializer.TagsAreKnown | demkit/demkit/components/util/entities/EntityDeserializer.py:24-38 | Every tag the gateway emits is a key of `entity_types`, and selects the class of the same variant. |
| EntityDeserializer.GatewayEntityRoundTrip | demkit/demkit/components/util/entities/EntityDeserializer.py:63-75 | Whatever `Entity::new` sends deserialises to the class of its variant. The class is built from exactly the serialised parameters, and its "name" is the gateway's name. |
| EntityDeserializer.ClassDeterminesVariant | demkit/demkit/components/util/entities/EntityDeserializer.py:24-38 | Two gateway entities that deserialise alike have the same variant and the same name. |
| EntityDeserializer.MissingKeyExamples | demkit/demkit/components/util/entities/EntityDeserializer.py:54-58 | A missing "type" raises the type message and a missing "entity" the params message. A number raises `TypeError`. |
| EntityDeserializer.UnknownTagExample | demkit/demkit/components/util/entities/EntityDeserializer.py:69-70 | "Nuclear" raises `ValueError("Unknown entity type: nuclear")`, with the tag lower-cased. |
| EntityDeserializer.WrongShapeExamples | demkit/demkit/components/util/entities/EntityDeserializer.py:66-73 | A numeric tag raises `AttributeError`, and null params raise `TypeError`. |
| Composer.MetersOf | demkit/demkit/components/util/ModelRestComposer.py:63-67 | The meters that `addMeter` collects are drawn from the entity list: never more of them than entities. |
| Composer.FirstNamed | demkit/demkit/components/util/ModelRestComposer.py:44-45 | The loop's stop: the first index whose entity has the name, or the length when none has it. |
| Composer.IndexOf | demkit/demkit/components/util/ModelRestComposer.py:59 | `list.remove`'s search by identity: the first index holding the object, and in range iff the object is listed. |
| Composer.RemoveAt | demkit/demkit/components/util/ModelRestComposer.py:46 | Deleting index i keeps everything before it and shifts everything after it down by one. |
| Composer.RemoveFirst | demkit/demkit/components/util/ModelRestComposer.py:46-48 | `list.remove(x)` deletes the first occurrence of x. |
| Composer.MetersAfterRemove | demkit/demkit/components/util/ModelRestComposer.py:46-48 | Deleting the first occurrence of a meter from the entities deletes the first occurrence of it from the meters. |
| Composer.MetersAfterRemoveOther | demkit/demkit/components/util/ModelRestComposer.py:46 | Deleting an entity that is not a meter leaves the meters as they were. |
| Composer.NoHostAfterRemovingIt | demkit/demkit/components/util/ModelRestComposer.py:57-61 | Once the current host is taken out, no host is left, so `setHost` keeps at most one. |
| Composer.LoadGuard | demkit/demkit/components/util/ModelRestComposer.py:72-78 | `load` passes iff params and host are set. Params are checked first. |
| Composer.StartGuard | demkit/demkit/components/util/ModelRestComposer.py:91-107 | `start` passes iff the status is LOADED and host and params are set. ACTIVE, INACTIVE, no host and no params each raise their own `ValueError`, in that order. |
| Composer.ModelEntity.constructor | demkit/demkit/components/util/entities/EntityDeserializer.py:73 | An entity keeps the class and name it was built with. |
| Composer.ModelRestComposer.constructor | demkit/demkit/components/util/ModelRestComposer.py:11-22 | A new composer is INACTIVE, with no entities, host, meters or params. |
| Composer.ModelRestComposer.Reset | demkit/demkit/components/util/ModelRestComposer.py:25-33 | Everything is cleared and the status is INACTIVE. Before any `start`, `self.thread` does not exist and `AttributeError` is raised after the clearing. |
| Composer.ModelRestComposer.Add | demkit/demkit/components/util/ModelRestComposer.py:35-41 | A host goes through `setHost`: the old host, if any, is removed and the new one appended, the meters are unchanged, and a missing old host fails with `ValueError` and changes nothing. A meter goes through `addMeter`. Anything else is appended, with host and meters unchanged. |
| Composer.ModelRestComposer.Remove | demkit/demkit/components/util/ModelRestComposer.py:43-54 | True iff some entity has the name. Then the first such entity is deleted, and dropped from the meters if it is one; all others stay in order. The host field is never cleared. |
| Composer.ModelRestComposer.SetHost | demkit/demkit/components/util/ModelRestComposer.py:56-61 | The previous host is removed first, then the new one appended. If the previous host is no longer listed, `list.remove` raises `ValueError` and nothing changes. |
| Composer.ModelRestComposer.AddMeter | demkit/demkit/components/util/ModelRestComposer.py:63-67 | The meter is appended to both the meters (created if absent) and the entities. |
| Composer.ModelRestComposer.SetSimParams | demkit/demkit/components/util/RestApi.py:117-126 | The configuration route is refused unless the composer is INACTIVE. Otherwise it stores the parsed body, and a JSON `null` stores `None`, so a later `load` raises for missing parameters. |
| Composer.NullConfigBlocksLoad | demkit/demkit/components/util/ModelRestComposer.py:72-75 | A composer with a host whose configuration body was `null` fails to load with "Simulation parameters must be set before loading entities". |
| Composer.ModelRestComposer.Load | demkit/demkit/components/util/ModelRestComposer.py:69-88 | The result is the load guard. On success the meters exist and the status is LOADED; on failure nothing changes. `load` checks no status, so it also returns an ACTIVE composer to LOADED, after which `start` can pass again. |
| Composer.ModelRestComposer.Start | demkit/demkit/components/util/ModelRestComposer.py:90-117 | The result is the start guard. On success the status is ACTIVE and a thread exists; on failure nothing changes. |
| Composer.Lifecycle | demkit/demkit/components/util/ModelRestComposer.py:90-112 | `start` fails from INACTIVE and from ACTIVE, and whatever lets `load` pass lets `start` pass from LOADED. |
| RestHost.FastForwardTicks | demkit/demkit/components/hosts/restHost.py:92-95 | The i-th tick is at t + i·timeBase. No tick happens without intervals, or with the clock at or past the target. |
| RestHost.StepsToCover | demkit/demkit/components/hosts/restHost.py:92 | The number of steps of size b needed to cover a distance d (ceil(d/b)). |
| RestHost.TickCount | demkit/demkit/components/hosts/restHost.py:92-95 | With a positive step, the loop ticks min(intervals, ceil((target − t)/timeBase)) times, every tick before the target. |
| RestHost.FinalClock | demkit/demkit/components/hosts/restHost.py:92 | After the loop, either all intervals are used or the clock has reached the target, and it overshoots by less than one step. |
| RestHost.RestHost.constructor | demkit/demkit/components/hosts/restHost.py:34-38 | A new host is unpaused and not fast-forwarding. |
| RestHost.RestHost.PauseSim | demkit/demkit/components/hosts/restHost.py:75-80 | After the call the host is paused; an already paused host is unchanged. |
| RestHost.RestHost.ResumeSim | demkit/demkit/components/hosts/restHost.py:82-87 | After the call the host is running, whatever came before; an already running host is unchanged. |
| RestHost.RestHost.SetTime | demkit/demkit/components/hosts/restHost.py:89-96 | The ticks made are exactly the fast-forward ticks. Each tick adds timeBase to the clock and uses one interval, and intervals never go below 0. On exit intervals ≤ 0 or the clock has reached the target. A target ≤ the clock does nothing. Every tick of the call sees the fast-forward event cleared, and the event is set again at the end. A time `fromtimestamp` cannot render (outside years 1 to 9999) raises at the log line before the event is cleared: the host is unchanged. |
| RestHost.RestHost.FastForward | demkit/demkit/components/hosts/restHost.py:91-96 | The loop after the log line: the ticks made are exactly the fast-forward ticks, each seeing the event cleared; the clock and intervals advance per tick, and the event is set at the end. |
| RestHost.FarFutureSetTimeExample | demkit/demkit/components/hosts/restHost.py:89-91 | A request for time 10^12, past year 9999, raises before the first tick: a host at clock 0 with five intervals keeps its clock, intervals and event. |
| HaBattery.EnergyIn | ha/config/custom_components/demkit/demkit/battery.py:8-13 | The consumption iff the status is "Charging", otherwise 0. |
| HaBattery.EnergyOut | ha/config/custom_components/demkit/demkit/battery.py:15-20 | The consumption iff the status is "Discharging", otherwise 0. |
| HaBattery.InOrOut | ha/config/custom_components/demkit/demkit/battery.py:8-20 | One snapshot never reports energy both in and out. |
| HaBattery.StateOfCharge | ha/config/custom_components/demkit/demkit/battery.py:22-24 | percent × capacity = soc × 100. |
| HaBattery.TargetPercent | ha/config/custom_components/demkit/demkit/battery.py:26-28 | `None` iff there is no target; otherwise percent × capacity = target × 100. |
| HaBattery.Trunc | ha/config/custom_components/demkit/demkit/battery.py:33 | Python `int(x)` truncates toward zero. |
| HaBattery.TargetToSend | ha/config/custom_components/demkit/demkit/battery.py:30-34 | A percentage becomes int(p/100 × capacity), and `None` is forwarded as `None`. |
| HaBattery.TargetReadBack | ha/config/custom_components/demkit/demkit/battery.py:26-34 | Setting p% and reading it back gives at most p and more than p − 100/capacity: truncation never rounds up. |
| HaBattery.EnergyMatchesGateway | ha/config/custom_components/demkit/demkit/battery.py:8-20 | For the view the gateway derives, energy in is the signed power above +100 W and energy out its negation below −100 W; both are 0 in the idle band. |
| HaSolar.Production | ha/config/custom_components/demkit/demkit/solar.py:10-12 | Production is never positive. It is −consumption for consumption ≥ 0 and 0 for consumption ≤ 0. |
| HaSolar.ProductionIsNegatedPositivePart | ha/config/custom_components/demkit/demkit/solar.py:12 | `min(−c, 0)` equals −max(c, 0). |
| HaSolar.TogglePath | ha/config/custom_components/demkit/demkit/solar.py:15-16 | The toggle goes to the same "/houses/0/solar/0" the reading uses, with the requested state. |
| Text.HouseScoped | hems-core/src/api/demkit/env.rs:280 | `{name}-House-{id}`: the name, then "-House-", then the decimal id. |
| Text.HouseScopedInjective | hems-core/src/api/demkit/env.rs:280 | For a fixed name, the house id can be read back from the scoped name. |
| Text.DecimalStringInjective | hems-core/src/api/demkit/battery.rs:58 | Different integers render differently. |
| Text.Lower | demkit/demkit/components/util/entities/EntityDeserializer.py:66 | Lower-casing keeps the length and maps A-Z to a-z, leaving all other characters. |
| Text.LowerIdempotent | demkit/demkit/components/util/entities/EntityDeserializer.py:66 | The result has no capitals, lower-casing twice is once, and text without capitals is unchanged. |
| Json.AsU64 | hems-core/src/api/demkit/timeshifters.rs:15-16 | A `u64` field accepts exactly integer literals in [0, 2^64). |
| Json.ObjectToDict | demkit/demkit/components/util/entities/EntityDeserializer.py:54-60 | Every key of the object is in the dict, and only those. Each key maps to the value of its last occurrence. |

## Left out

- HTTP transport. This covers actix routing, utoipa annotations, reqwest/requests calls, base URLs, tokens read from the environment and `.await`. Replies are parameters. Error bodies are the `ApiError` value, not its `Debug` text.
- The exact status code of a reply: only success or not is modelled.
- `get_time` and its `unwrap` panic. The clock is the `now` parameter of `TimeShiftersApi.ScheduleJobResult`.
- `list_entities`, `get_jobs`, `set_entity_state` and `get_entity_state`: plain pass-through calls with no logic beyond transport.
- solar.rs in both `api/demkit` and `resources/devices` is not part of this model: a thin pass-through of the modulus. The resource passes the solar id as the house id, the same slip as the thermal one below.
- house.rs and the hub's sim.py are not part of this model: fixed scripts of calls.
- rest.py is not part of this model: field access and HTTP. Its battery-info builder assigns a list literal `["max_discharge"]` to `max_discharge` instead of reading the field.
- The simulator's REST routes, threads and command queues (RestApi.py, eveApi.py): guards that reject calls by status or a past time are not preconditions here. `SetSimParams` stands for the configuration route and models its INACTIVE guard; the other routes' guards are not modelled.
- The entity classes' own keyword checks and their `load`, and `startSimulationThread` with its event waits and sleeps.
- `ModelRestComposer.start` also sets `self.host.inner.restApi = True` (ModelRestComposer.py:114), which keeps the host from building its own EveApi (restHost.py:45-46). `Composer.ModelRestComposer.Start` does not model the host's inner object.
- Logging and console output: `restHost.py`'s `logMsg` lines, its "Simulation paused"/"Simulation resumed" prints, and the composer's `[WRN]` prints.
- RestHost.RestHost.SetTime: `datetime.fromtimestamp` is taken in UTC, so its representable range is years 1 to 9999 of UTC, not of the host's local time zone. A time outside it raises before any tick, and the host is unchanged.
- Concurrency: the `RwLock` around the load map held across an await, and the composer's thread.
- IEEE-754: NaN, −0.0 (whose `signum` is −1), infinities and rounding; `f64` is `real`. The one case where the code yields a non-finite number is kept: `TimeShiftersResource.Progress` is `None` for an empty profile, which serde writes as `null`.
- u64 and u32 widths: job times, delays and ids are unbounded naturals, so `now + delay + duration` overflow is not modelled.
- `input[2..]` works on bytes and panics inside a multi-byte character; the model counts characters.
- Demkit.Norm: states only the bounds max(|re|,|im|) ≤ n ≤ |re|+|im| and the axis cases, not the exact square root, which Dafny's reals cannot express.
- Demkit.ParseComplexLiteral: num-complex's grammar is library code; only "empty text is not a number" is stated.
- HaEntity.ParsesAsF64: Rust's `f64` grammar is library code; only "empty text is not a number" is stated.
- PyComplex.SimulatorToGateway: Python's `str(complex)` is the `show` parameter, so the round trip is stated under the assumption that num-complex reads that rendering.
- ThermalApi.SetTargetTemp: Rust's `{}` rendering of an `f64` in the rejection message is the `display` parameter.
- ThermalResource.GetByIdAsWritten: its own ensures state only which entities are read; the response it gives is stated by `ThermalResource.GetFor`, which it calls.
- ThermalResource.GetById: likewise, its response is stated by `ThermalResource.GetFor`.
- Text.Lower: ASCII lower-casing only; Python's `str.lower` also folds non-ASCII letters.
- Serde key order and JSON number formatting. A serialised object is an ordered entry list. A Python dict built from one keeps the last value of a repeated key.
- `HaBattery.StateOfCharge` and `HaBattery.TargetPercent` require a non-zero capacity: Python raises `ZeroDivisionError` there, and that raise is not modelled.
- The aliasing of Python lists: a composer's lists are sequence fields that are replaced, not shared objects.
- `RestHost`'s base-class fields (`currentTime`, `intervals`, `timeBase`) are constructor parameters. The base class is not part of this model.

## Findings

| source | as written | input that shows it | evidently intended | confidence | as-written member | corrected member |
|---|---|---|---|---|---|---|
| hems-core/src/resources/devices/thermal.rs:44-51 | `get_by_id` reads the zone and the thermostat of house `thermal_id`, ignoring the route's house id | house 1, thermal device 0: `set_target_temp` writes "Thermostat-House-1" but `get_by_id` reads "Thermostat-House-0" | read the zone and thermostat of the route's house, as `set_target_temp` (thermal.rs:84-85) writes them | medium; not executed | ThermalResource.GetByIdAsWritten, with ThermalResource.AsWrittenReadsOtherThermostat and ThermalResource.AsWrittenExample | ThermalResource.GetById, with ThermalResource.SetThenGet |
