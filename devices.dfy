/** hems-core/src/api/demkit/devices.rs: any device's consumption, read by
    name, and the generic property read. */
module Devices {
  import opened Wrappers
  import opened Demkit
  import Meter

  /** `get_device_property`: `/get/{device}/{property}`. */
  function DevicePropertyCall(device: string, property: string): (c: SimCall)
    ensures c.GetVar? && c.entity == device && c.variable == property
  {
    GetVar(device, property)
  }

  /** `get_device_consumption` reads the `consumption` property; the house
      id parameter is not used. */
  function DeviceConsumptionCall(houseId: nat, device: string): SimCall
  {
    DevicePropertyCall(device, "consumption")
  }

  predicate ParsesWithoutPanic(comm: Commodities)
  {
    comm.electricity.Some? ==> NoSlicePanic(comm.electricity.value)
  }

  /** `get_device_electricity_consumption`. */
  ghost function DeviceElectricity(reply: Reply<Commodities>): (r: Result<Measurement, ApiError>)
    requires reply.Received? ==> ParsesWithoutPanic(reply.body)
    ensures reply.Failed? ==> r == Err(ReqwestError(reply.detail))
    ensures reply.Received? && reply.body.electricity.None? ==> r == Ok(Measurement(0.0, "W"))
    ensures reply.Received? && reply.body.electricity.Some? ==>
      (r.Err? <==> ParseComplexStr(reply.body.electricity.value).Err?)
    ensures r.Err? ==> reply.Failed? || r.error == ParseError
    ensures r.Ok? ==> r.value.unit == "W" && r.value.value >= 0.0
  {
    match reply
    case Failed(d) => Err(ReqwestError(d))
    case Received(comm) =>
      match comm.electricity
      case None => Ok(Measurement(0.0, "W"))
      case Some(power) =>
        (match ParseComplexStr(power)
         case Err(e) => Err(e)
         case Ok(p) => Ok(Measurement(Max(Norm(p) * Signum(p.re), 0.0), "W")))
  }

  /** A device's reading follows exactly the meter's import rule. */
  lemma DeviceMatchesMeterImport(houseId: nat, reply: Reply<Commodities>)
    requires reply.Received? ==> Meter.ElectricityPresent(reply.body)
    ensures DeviceElectricity(reply) == Meter.EnergyImport(houseId, reply).1
  {
  }

  /** The address depends only on the device name, never on the house id. */
  lemma HouseIdUnused(h1: nat, h2: nat, device: string)
    ensures DeviceConsumptionCall(h1, device) == DeviceConsumptionCall(h2, device)
    ensures DeviceConsumptionCall(h1, device) == GetVar(device, "consumption")
  {
  }
}
