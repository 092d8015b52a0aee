/** hems-core/src/api/demkit/meter.rs: the smart meter's signed reading
    split into an import and an export figure. */
module Meter {
  import opened Wrappers
  import opened Text
  import opened Demkit

  /** `/get/SmartMeter-House-{id}/consumption`, read by both functions. */
  function MeterReadingCall(houseId: nat): (c: SimCall)
    ensures c.GetVar? && c.variable == "consumption"
    ensures c.entity == HouseScoped("SmartMeter", houseId)
  {
    GetVar(HouseScoped("SmartMeter", houseId), "consumption")
  }

  /** `(norm * signum(re)).max(0.0)`. */
  ghost function ImportValue(c: ComplexValue): (w: real)
    ensures w >= 0.0
    ensures c.re >= 0.0 ==> w == Norm(c)
    ensures c.re < 0.0 ==> w == 0.0
  {
    Max(SignedPower(c), 0.0)
  }

  /** `(-norm * signum(re)).max(0.0)`. */
  ghost function ExportValue(c: ComplexValue): (w: real)
    ensures w >= 0.0
    ensures c.re < 0.0 ==> w == Norm(c)
    ensures c.re >= 0.0 ==> w == 0.0
  {
    Max(-Norm(c) * Signum(c.re), 0.0)
  }

  /** One reading is never both imported and exported, and the two parts
      together are its magnitude. */
  lemma ImportExportSplit(c: ComplexValue)
    ensures ImportValue(c) == 0.0 || ExportValue(c) == 0.0
    ensures ImportValue(c) + ExportValue(c) == Norm(c)
  {
  }

  /** `signum(+0.0) = 1`: purely reactive power counts entirely as import. */
  lemma ReactiveCountsAsImport(im: real)
    requires im != 0.0
    ensures ImportValue(ComplexValue(0.0, im)) == Abs(im) > 0.0
    ensures ExportValue(ComplexValue(0.0, im)) == 0.0
  {
  }

  /** A reading decodes without panicking: ELECTRICITY is present and, as a
      string, long enough for `input[2..]`. */
  predicate ElectricityPresent(comm: Commodities)
  {
    comm.electricity.Some? && NoSlicePanic(comm.electricity.value)
  }

  /** The shared body of `get_energy_import` and `get_energy_export`. */
  ghost function MeterMeasurement(reply: Reply<Commodities>, exporting: bool): (r: Result<Measurement, ApiError>)
    requires reply.Received? ==> ElectricityPresent(reply.body)
    ensures reply.Failed? ==> r == Err(ReqwestError(reply.detail))
    ensures r.Ok? ==> r.value.unit == "W" && r.value.value >= 0.0
    ensures reply.Received? ==>
      match ParseComplexStr(reply.body.electricity.value)
      case Err(_) => r == Err(ParseError)
      case Ok(c) => r == Ok(Measurement(if exporting then ExportValue(c) else ImportValue(c), "W"))
  {
    match reply
    case Failed(d) => Err(ReqwestError(d))
    case Received(comm) =>
      (match ParseComplexStr(comm.electricity.value)
       case Err(e) => Err(e)
       case Ok(power) => Ok(Measurement(if exporting then ExportValue(power) else ImportValue(power), "W")))
  }

  /** `get_energy_import`: the one meter read, and the import figure. */
  ghost function EnergyImport(houseId: nat, reply: Reply<Commodities>): (r: (seq<SimCall>, Result<Measurement, ApiError>))
    requires reply.Received? ==> ElectricityPresent(reply.body)
    ensures r.0 == [MeterReadingCall(houseId)]
    ensures reply.Failed? ==> r.1 == Err(ReqwestError(reply.detail))
    ensures reply.Received? ==> (r.1.Ok? <==> ParseComplexStr(reply.body.electricity.value).Ok?)
    ensures r.1.Err? ==> reply.Failed? || r.1.error == ParseError
    ensures r.1.Ok? ==> r.1.value == Measurement(ImportValue(ParseComplexStr(reply.body.electricity.value).value), "W")
  {
    ([MeterReadingCall(houseId)], MeterMeasurement(reply, false))
  }

  /** `get_energy_export`: the same meter read, and the export figure. */
  ghost function EnergyExport(houseId: nat, reply: Reply<Commodities>): (r: (seq<SimCall>, Result<Measurement, ApiError>))
    requires reply.Received? ==> ElectricityPresent(reply.body)
    ensures r.0 == [MeterReadingCall(houseId)]
    ensures reply.Failed? ==> r.1 == Err(ReqwestError(reply.detail))
    ensures reply.Received? ==> (r.1.Ok? <==> ParseComplexStr(reply.body.electricity.value).Ok?)
    ensures r.1.Err? ==> reply.Failed? || r.1.error == ParseError
    ensures r.1.Ok? ==> r.1.value == Measurement(ExportValue(ParseComplexStr(reply.body.electricity.value).value), "W")
  {
    ([MeterReadingCall(houseId)], MeterMeasurement(reply, true))
  }

  /** The meter read names its house: two houses never share a meter. */
  lemma MeterReadingCallInjective(a: nat, b: nat)
    requires MeterReadingCall(a) == MeterReadingCall(b)
    ensures a == b
  {
    HouseScopedInjective("SmartMeter", a, b);
  }

  /** Over the same reading, import and export succeed together, are never
      both positive, and add up to the magnitude of the meter's reading;
      both read the same meter. */
  lemma ImportAndExportAgree(houseId: nat, reply: Reply<Commodities>)
    requires reply.Received? ==> ElectricityPresent(reply.body)
    ensures EnergyImport(houseId, reply).0 == EnergyExport(houseId, reply).0
    ensures EnergyImport(houseId, reply).1.Ok? <==> EnergyExport(houseId, reply).1.Ok?
    ensures EnergyImport(houseId, reply).1.Ok? ==>
      && (EnergyImport(houseId, reply).1.value.value == 0.0 || EnergyExport(houseId, reply).1.value.value == 0.0)
      && EnergyImport(houseId, reply).1.value.value + EnergyExport(houseId, reply).1.value.value
         == Norm(ParseComplexStr(reply.body.electricity.value).value)
  {
    if reply.Received? && ParseComplexStr(reply.body.electricity.value).Ok? {
      ImportExportSplit(ParseComplexStr(reply.body.electricity.value).value);
    }
  }
}
