/** hems-core/src/resources/devices/thermal.rs: the thermal view the gateway
    serves and the target-temperature endpoint. The route carries a house id
    and a thermal id. */
module ThermalResource {
  import opened Wrappers
  import opened Text
  import opened Demkit
  import opened Http
  import opened ThermalApi

  datatype ThermalInfo = ThermalInfo(
    currentTemperature: real,
    targetTemperature: real,
    heatingPower: real,
    consumption: real)

  /** The view assembled from a zone record (as `get_current_zone_temp`
      returns it, heat filled in) and the thermostat's band. */
  ghost function ToThermalInfo(z: ZoneProperties, t: ThermostatProperties): (info: ThermalInfo)
    requires z.heatConsumption.Some?
    ensures info.currentTemperature == z.temperature
    ensures info.heatingPower == z.valveHeat
    ensures info.consumption >= 0.0
    ensures info.consumption == Norm(z.heatConsumption.value)
    ensures info.targetTemperature == (t.minTargetTemp + t.maxTargetTemp) / 2.0
    ensures info.consumption == 0.0 <==> z.heatConsumption.value == ComplexValue(0.0, 0.0)
    ensures t.minTargetTemp <= t.maxTargetTemp ==>
      t.minTargetTemp <= info.targetTemperature <= t.maxTargetTemp
  {
    ThermalInfo(z.temperature, (t.minTargetTemp + t.maxTargetTemp) / 2.0, z.valveHeat, Norm(z.heatConsumption.value))
  }

  /** The handler's body for the simulator house `target`: the zone read,
      then (only if it succeeded) the thermostat read, and the response. */
  ghost function GetFor(target: nat, zone: Reply<ZoneProperties>, thermo: Reply<ThermostatProperties>): (r: (seq<SimCall>, Response<ThermalInfo>))
    requires zone.Received? ==> HeatReadable(zone.body)
    ensures !r.1.BadRequest400?
    ensures GetCurrentZoneTemp(zone).Err? ==> r == ([ZoneCall(target)], InternalError500(GetCurrentZoneTemp(zone).error))
    ensures GetCurrentZoneTemp(zone).Ok? ==> r.0 == [ZoneCall(target), ThermostatCall(target)]
    ensures GetCurrentZoneTemp(zone).Ok? && thermo.Failed? ==> r.1 == InternalError500(ReqwestError(thermo.detail))
    ensures r.1.Ok200? <==> GetCurrentZoneTemp(zone).Ok? && thermo.Received?
    ensures r.1.Ok200? ==> r.1.body == ToThermalInfo(GetCurrentZoneTemp(zone).value, thermo.body)
  {
    match GetCurrentZoneTemp(zone)
    case Err(e) => ([ZoneCall(target)], InternalError500(e))
    case Ok(z) =>
      match GetThermostatProperties(thermo)
      case Err(e) => ([ZoneCall(target), ThermostatCall(target)], InternalError500(e))
      case Ok(t) => ([ZoneCall(target), ThermostatCall(target)], Ok200(ToThermalInfo(z, t)))
  }

  /** `get_by_id` as written: both reads are addressed with the thermal id,
      although the simulator names zones and thermostats by house. */
  ghost function GetByIdAsWritten(houseId: nat, thermalId: nat, zone: Reply<ZoneProperties>, thermo: Reply<ThermostatProperties>): (r: (seq<SimCall>, Response<ThermalInfo>))
    requires zone.Received? ==> HeatReadable(zone.body)
    ensures 1 <= |r.0| <= 2 && r.0[0] == ZoneCall(thermalId)
    ensures |r.0| == 2 ==> r.0[1] == ThermostatCall(thermalId)
  {
    GetFor(thermalId, zone, thermo)
  }

  /** `get_by_id` as intended: both reads address the route's house, as
      `set_target_temp` does. The rest of the model uses this one. */
  ghost function GetById(houseId: nat, thermalId: nat, zone: Reply<ZoneProperties>, thermo: Reply<ThermostatProperties>): (r: (seq<SimCall>, Response<ThermalInfo>))
    requires zone.Received? ==> HeatReadable(zone.body)
    ensures 1 <= |r.0| <= 2 && r.0[0] == ZoneCall(houseId)
    ensures |r.0| == 2 ==> r.0[1] == ThermostatCall(houseId)
  {
    GetFor(houseId, zone, thermo)
  }

  /** `set_target_temp`: on success the requested temperature is echoed
      back; the thermal id plays no part. */
  function SetTargetTemp(houseId: nat, thermalId: nat, temp: real, display: real -> string, sends: seq<Outcome<string>>): (r: (seq<SimCall>, Response<real>))
    requires |sends| == 4
    ensures !r.1.BadRequest400?
    ensures r.0 == ThermalApi.SetTargetTemp(houseId, temp, display, sends).0
    ensures r.1.Ok200? <==> ThermalApi.SetTargetTemp(houseId, temp, display, sends).1.Pass?
    ensures r.1.Ok200? ==> r.1.body == temp
    ensures r.1.InternalError500? ==> Fail(r.1.error) == ThermalApi.SetTargetTemp(houseId, temp, display, sends).1
  {
    var (calls, outcome) := ThermalApi.SetTargetTemp(houseId, temp, display, sends);
    match outcome
    case Fail(e) => (calls, InternalError500(e))
    case Pass => (calls, Ok200(temp))
  }

  /** Finding, as written: whenever the two ids differ, `get_by_id` reads a
      thermostat other than the one `set_target_temp` writes. */
  lemma AsWrittenReadsOtherThermostat(houseId: nat, thermalId: nat, temp: real, display: real -> string,
                                      z: ZoneProperties, thermo: Reply<ThermostatProperties>)
    requires houseId != thermalId
    requires HeatReadable(z) && ParseComplexStr(z.consumption.heat.value).Ok?
    requires BandAccepted(temp)
    ensures var get := GetByIdAsWritten(houseId, thermalId, Received(z), thermo).0;
      var sent := SetTargetTemp(houseId, thermalId, temp, display, [Pass, Pass, Pass, Pass]).0;
      |get| == 2 && |sent| == 4 && get[1].entity != sent[0].entity
  {
    if ThermostatEntity(thermalId) == ThermostatEntity(houseId) {
      HouseScopedInjective("Thermostat", thermalId, houseId);
    }
  }

  /** Finding, a concrete input: house 1, thermal device 0. The write goes to
      "Thermostat-House-1", the read to "Thermostat-House-0". */
  lemma AsWrittenExample(display: real -> string, z: ZoneProperties, thermo: Reply<ThermostatProperties>)
    requires HeatReadable(z) && ParseComplexStr(z.consumption.heat.value).Ok?
    ensures GetByIdAsWritten(1, 0, Received(z), thermo).0[1].entity == "Thermostat-House-0"
    ensures SetTargetTemp(1, 0, 20.0, display, [Pass, Pass, Pass, Pass]).0[0].entity == "Thermostat-House-1"
  {
    assert DecimalString(0) == "0";
    assert DecimalString(1) == "1";
  }

  /** Corrected: the thermostat `get_by_id` reads is the one
      `set_target_temp` writes, and reading back a band that was set reports
      the requested temperature. The simulator's thermostat is a parameter:
      the lemma takes as given that it answers the read with the band just
      written, which is a condition on the simulator, not a fact proved about
      it. */
  lemma SetThenGet(houseId: nat, thermalId: nat, temp: real, display: real -> string, z: ZoneProperties)
    requires HeatReadable(z) && ParseComplexStr(z.consumption.heat.value).Ok?
    requires BandAccepted(temp)
    ensures var sent := SetTargetTemp(houseId, thermalId, temp, display, [Pass, Pass, Pass, Pass]);
      var get := GetById(houseId, thermalId, Received(z),
                         Received(ThermostatProperties(temp - DeltaTemp, temp + DeltaTemp)));
      && sent.1 == Ok200(temp)
      && |get.0| == 2 && get.0[1].entity == sent.0[0].entity
      && get.1.Ok200? && get.1.body.targetTemperature == temp
  {
  }

  /** A refused target makes no simulator call and answers 500. */
  lemma RefusedTargetSendsNothing(houseId: nat, thermalId: nat, temp: real, display: real -> string, sends: seq<Outcome<string>>)
    requires |sends| == 4
    requires temp < 1.0 || temp > 34.0
    ensures SetTargetTemp(houseId, thermalId, temp, display, sends).0 == []
    ensures SetTargetTemp(houseId, thermalId, temp, display, sends).1.InternalError500?
  {
    AcceptedRange(temp);
  }
}
