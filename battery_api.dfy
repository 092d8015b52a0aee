/** hems-core/src/api/demkit/battery.rs: reading the house battery and
    setting its target state of charge. */
module BatteryApi {
  import opened Wrappers
  import opened Text
  import opened Demkit

  /** `Battery-House-{id}`, the only battery entity a house has. */
  function BatteryEntity(houseId: nat): string
  {
    HouseScoped("Battery", houseId)
  }

  /** The fields of `BatteryProperties` the gateway uses; the others are
      decoded and passed on untouched. */
  datatype BatteryProperties = BatteryProperties(
    name: string,
    consumption: Commodities,
    soc: real,
    targetSoc: Option<real>,
    capacity: real,
    chargingPowers: seq<real>,
    electricityConsumption: Option<ComplexValue>)

  function GetPropertiesCall(houseId: nat): SimCall
  {
    Call(BatteryEntity(houseId), "getProperties")
  }

  /** The `expect` and the slice in `parse_complex_str` do not panic. */
  predicate ElectricityReadable(bp: BatteryProperties)
  {
    bp.consumption.electricity.Some? && NoSlicePanic(bp.consumption.electricity.value)
  }

  /** `get_battery_properties`: the decoded record with
      `electricity_consumption` filled from `consumption.ELECTRICITY`. */
  ghost function GetBatteryProperties(reply: Reply<BatteryProperties>): (r: Result<BatteryProperties, ApiError>)
    requires reply.Received? ==> ElectricityReadable(reply.body)
    ensures reply.Failed? ==> r == Err(ReqwestError(reply.detail))
    ensures r.Err? ==> reply.Failed? || r.error == ParseError
    ensures r.Ok? ==>
      && r.value.electricityConsumption.Some?
      && ParseComplexStr(reply.body.consumption.electricity.value) == Ok(r.value.electricityConsumption.value)
      && r.value == reply.body.(electricityConsumption := r.value.electricityConsumption)
    ensures reply.Received? ==> (r.Ok? <==> ParseComplexStr(reply.body.consumption.electricity.value).Ok?)
  {
    match reply
    case Failed(d) => Err(ReqwestError(d))
    case Received(bp) =>
      (match ParseComplexStr(bp.consumption.electricity.value)
       case Err(e) => Err(e)
       case Ok(c) => Ok(bp.(electricityConsumption := Some(c))))
  }

  const NoTarget: string := "None"

  /** The path segment for the target: "None", or the decimal number. */
  function SocSegment(soc: Option<nat>): (s: string)
    ensures soc.None? ==> s == NoTarget
    ensures soc.Some? ==> s == DecimalString(soc.value) && IsDigit(s[0])
  {
    match soc
    case None => NoTarget
    case Some(n) => DecimalString(n)
  }

  /** Different targets are sent as different segments: "None" is no number. */
  lemma SocSegmentInjective(a: Option<nat>, b: Option<nat>)
    requires SocSegment(a) == SocSegment(b)
    ensures a == b
  {
    assert !IsDigit(NoTarget[0]);
    if a.Some? && b.Some? {
      DecimalStringInjective(a.value, b.value);
    }
  }

  function SetTargetCall(houseId: nat, soc: Option<nat>): SimCall
  {
    SetVar(BatteryEntity(houseId), "targetSoC", Segment(SocSegment(soc)))
  }

  const SetTargetFailure: string := "Failed to set target SoC"

  /** The calls `set_target_soc` makes: the refetch only after a `true`. */
  function SetTargetCalls(houseId: nat, soc: Option<nat>, ack: Reply<bool>): (calls: seq<SimCall>)
    ensures |calls| >= 1 && calls[0] == SetTargetCall(houseId, soc)
    ensures GetPropertiesCall(houseId) in calls <==> ack == Received(true)
    ensures forall c :: c in calls ==> !c.GetTime? && c.entity == BatteryEntity(houseId)
  {
    [SetTargetCall(houseId, soc)] + (if ack == Received(true) then [GetPropertiesCall(houseId)] else [])
  }

  /** `set_target_soc`: the simulator's yes/no, then the fresh properties. */
  ghost function SetTargetSoc(ack: Reply<bool>, refetch: Reply<BatteryProperties>): (r: Result<BatteryProperties, ApiError>)
    requires ack == Received(true) && refetch.Received? ==> ElectricityReadable(refetch.body)
    ensures ack.Failed? ==> r == Err(ReqwestError(ack.detail))
    ensures ack == Received(false) ==> r == Err(DemkitError(SetTargetFailure))
    ensures ack == Received(true) ==> r == GetBatteryProperties(refetch)
  {
    match ack
    case Failed(d) => Err(ReqwestError(d))
    case Received(success) =>
      if success then GetBatteryProperties(refetch) else Err(DemkitError(SetTargetFailure))
  }
}
