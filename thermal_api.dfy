/** hems-core/src/api/demkit/thermal.rs: the zone and thermostat reads and
    the target-temperature write. Rust's `{}` rendering of an `f64` is a
    parameter, `display`. */
module ThermalApi {
  import opened Wrappers
  import opened Text
  import opened Demkit

  function ZoneEntity(id: nat): string { HouseScoped("Zone", id) }
  function ThermostatEntity(id: nat): string { HouseScoped("Thermostat", id) }

  /** The decoded zone record; `heat_consumption` is filled in afterwards. */
  datatype ZoneProperties = ZoneProperties(
    temperature: real,
    valveHeat: real,
    consumption: Commodities,
    heatConsumption: Option<ComplexValue>)

  datatype ThermostatProperties = ThermostatProperties(minTargetTemp: real, maxTargetTemp: real)

  function ZoneCall(id: nat): SimCall { Call(ZoneEntity(id), "getProperties") }
  function ThermostatCall(id: nat): SimCall { Call(ThermostatEntity(id), "getProperties") }

  /** The `expect("Heat commodity not found")` and the slice do not panic. */
  predicate HeatReadable(z: ZoneProperties)
  {
    z.consumption.heat.Some? && NoSlicePanic(z.consumption.heat.value)
  }

  /** `get_current_zone_temp`: the HEAT commodity, not ELECTRICITY, becomes
      `heat_consumption`. */
  ghost function GetCurrentZoneTemp(reply: Reply<ZoneProperties>): (r: Result<ZoneProperties, ApiError>)
    requires reply.Received? ==> HeatReadable(reply.body)
    ensures reply.Failed? ==> r == Err(ReqwestError(reply.detail))
    ensures reply.Received? ==> (r.Ok? <==> ParseComplexStr(reply.body.consumption.heat.value).Ok?)
    ensures r.Err? ==> reply.Failed? || r.error == ParseError
    ensures r.Ok? ==>
      && r.value.heatConsumption.Some?
      && ParseComplexStr(reply.body.consumption.heat.value) == Ok(r.value.heatConsumption.value)
      && r.value == reply.body.(heatConsumption := r.value.heatConsumption)
  {
    match reply
    case Failed(d) => Err(ReqwestError(d))
    case Received(z) =>
      (match ParseComplexStr(z.consumption.heat.value)
       case Err(e) => Err(e)
       case Ok(c) => Ok(z.(heatConsumption := Some(c))))
  }

  /** `get_thermostat_properties`: the decoded record as it is. */
  function GetThermostatProperties(reply: Reply<ThermostatProperties>): (r: Result<ThermostatProperties, ApiError>)
    ensures reply.Failed? ==> r == Err(ReqwestError(reply.detail))
    ensures reply.Received? ==> r == Ok(reply.body)
  {
    match reply
    case Failed(d) => Err(ReqwestError(d))
    case Received(t) => Ok(t)
  }

  /** `DELTA_TEMP`. */
  const DeltaTemp: real := 1.0
  const LowestSetpoint: real := 0.0
  const HighestSetpoint: real := 35.0

  /** The band requested around a target. */
  function Band(temp: real): (b: (real, real))
    ensures b.1 - b.0 == 2.0 * DeltaTemp
    ensures (b.0 + b.1) / 2.0 == temp
  {
    (temp - DeltaTemp, temp + DeltaTemp)
  }

  /** The guard `min < 0.0 || max > 35.0`, negated. */
  predicate BandAccepted(temp: real)
  {
    !(Band(temp).0 < LowestSetpoint || Band(temp).1 > HighestSetpoint)
  }

  /** Accepted exactly for targets between 1 and 34 degrees. */
  lemma AcceptedRange(temp: real)
    ensures BandAccepted(temp) <==> 1.0 <= temp <= 34.0
  {
  }

  /** The four writes, in the order they are sent. */
  function SetCalls(houseId: nat, temp: real): (calls: seq<SimCall>)
    ensures |calls| == 4
    ensures forall i :: 0 <= i < 4 ==> calls[i].SetVar? && calls[i].entity == ThermostatEntity(houseId)
    ensures calls[0].value == F64(temp - DeltaTemp) && calls[1].value == F64(temp - DeltaTemp)
    ensures calls[2].value == F64(temp + DeltaTemp) && calls[3].value == F64(temp + DeltaTemp)
    ensures calls[0].variable == "temperatureSetpointHeating" && calls[1].variable == "temperatureMin"
    ensures calls[2].variable == "temperatureSetpointCooling" && calls[3].variable == "temperatureMax"
  {
    var (lo, hi) := Band(temp);
    var e := ThermostatEntity(houseId);
    [SetVar(e, "temperatureSetpointHeating", F64(lo)),
     SetVar(e, "temperatureMin", F64(lo)),
     SetVar(e, "temperatureSetpointCooling", F64(hi)),
     SetVar(e, "temperatureMax", F64(hi))]
  }

  /** Sending requests one after another with `?`: the first transport
      failure stops the rest. `sends[i]` is what sending `calls[i]` did; the
      simulator's answer itself is not inspected. */
  function SendInOrder(calls: seq<SimCall>, sends: seq<Outcome<string>>): (r: (seq<SimCall>, Outcome<ApiError>))
    requires |sends| == |calls|
    ensures r.0 <= calls
    ensures r.1.Pass? <==> forall i :: 0 <= i < |sends| ==> sends[i].Pass?
    ensures r.1.Pass? ==> r.0 == calls
    ensures r.1.Fail? ==>
      && 1 <= |r.0|
      && sends[|r.0| - 1].Fail? && r.1 == Fail(ReqwestError(sends[|r.0| - 1].error))
      && forall i :: 0 <= i < |r.0| - 1 ==> sends[i].Pass?
    decreases |calls|
  {
    if calls == [] then ([], Pass)
    else if sends[0].Fail? then ([calls[0]], Fail(ReqwestError(sends[0].error)))
    else
      var rest := SendInOrder(calls[1..], sends[1..]);
      assert forall i :: 1 <= i < |sends| ==> sends[1..][i - 1] == sends[i];
      ([calls[0]] + rest.0, rest.1)
  }

  const InvalidPrefix: string := "Invalid Temperature: "
  const InvalidSuffix: string := ". Temp must be between 0 and 35 degrees Celsius"

  /** `set_target_temp`: the calls made and the result. A rejected target
      makes no call, and its message quotes the band's upper end. */
  function SetTargetTemp(houseId: nat, temp: real, display: real -> string, sends: seq<Outcome<string>>): (r: (seq<SimCall>, Outcome<ApiError>))
    requires |sends| == 4
    ensures !BandAccepted(temp) ==>
      r == ([], Fail(DemkitError(InvalidPrefix + display(temp + DeltaTemp) + InvalidSuffix)))
    ensures BandAccepted(temp) ==> r == SendInOrder(SetCalls(houseId, temp), sends)
  {
    if !BandAccepted(temp) then ([], Fail(DemkitError(InvalidPrefix + display(Band(temp).1) + InvalidSuffix)))
    else SendInOrder(SetCalls(houseId, temp), sends)
  }

  /** When every send goes through, the heating side of the thermostat gets
      `temp - 1`, the cooling side `temp + 1`, exactly once each. */
  lemma SuccessfulSetWritesBand(houseId: nat, temp: real, display: real -> string)
    requires BandAccepted(temp)
    ensures var r := SetTargetTemp(houseId, temp, display, [Pass, Pass, Pass, Pass]);
      r.1.Pass? && r.0 == SetCalls(houseId, temp)
  {
  }

  /** Example: 20 degrees is sent as 19 and 21; 35 is refused without a call. */
  lemma SetExamples(display: real -> string)
    ensures SetCalls(0, 20.0)[0].value == F64(19.0) && SetCalls(0, 20.0)[2].value == F64(21.0)
    ensures SetTargetTemp(0, 35.0, display, [Pass, Pass, Pass, Pass]).0 == []
    ensures SetTargetTemp(0, 0.5, display, [Pass, Pass, Pass, Pass]).1.Fail?
  {
  }
}
