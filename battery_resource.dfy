/** hems-core/src/resources/devices/battery.rs: the battery view the
    gateway serves, derived from the simulator's battery properties. */
module BatteryResource {
  import opened Wrappers
  import opened Demkit
  import opened Http
  import opened BatteryApi

  datatype BatteryStatus = Charging | Discharging | Idle

  /** `1e2`: the dead band, in W, around zero in which the battery is idle. */
  const StatusThreshold: real := 100.0

  /** The if/else-if chain on the signed consumption. */
  function Classify(p: real): (s: BatteryStatus)
    ensures s == Charging <==> p > StatusThreshold
    ensures s == Discharging <==> p < -StatusThreshold
    ensures s == Idle <==> -StatusThreshold <= p <= StatusThreshold
  {
    if p > StatusThreshold then Charging
    else if p < -StatusThreshold then Discharging
    else Idle
  }

  datatype BatteryInfo = BatteryInfo(
    capacity: real,
    maxCharge: real,
    maxDischarge: real,
    stateOfCharge: real,
    targetSoc: Option<real>,
    status: BatteryStatus,
    consumption: real)

  /** `charging_powers.last().unwrap_or(&0.0)`. */
  function LastOrZero(xs: seq<real>): (x: real)
    ensures xs == [] ==> x == 0.0
    ensures xs != [] ==> x == xs[|xs| - 1]
  {
    if xs == [] then 0.0 else xs[|xs| - 1]
  }

  /** `charging_powers.first().unwrap_or(&0.0)`. */
  function FirstOrZero(xs: seq<real>): (x: real)
    ensures xs == [] ==> x == 0.0
    ensures xs != [] ==> x == xs[0]
  {
    if xs == [] then 0.0 else xs[0]
  }

  /** `From<BatteryProperties> for BatteryInfo`; the `unwrap` needs the
      electricity reading that `get_battery_properties` always fills in. */
  ghost function FromProperties(bp: BatteryProperties): (info: BatteryInfo)
    requires bp.electricityConsumption.Some?
    ensures info.capacity == bp.capacity
    ensures info.stateOfCharge == bp.soc
    ensures info.targetSoc == bp.targetSoc
    ensures info.consumption >= 0.0
    ensures info.consumption == Norm(bp.electricityConsumption.value)
    ensures info.maxCharge == LastOrZero(bp.chargingPowers)
    ensures info.maxDischarge == -FirstOrZero(bp.chargingPowers)
    ensures info.status == Classify(SignedPower(bp.electricityConsumption.value))
  {
    var elec := bp.electricityConsumption.value;
    BatteryInfo(
      bp.capacity,
      LastOrZero(bp.chargingPowers),
      -FirstOrZero(bp.chargingPowers),
      bp.soc,
      bp.targetSoc,
      Classify(Norm(elec) * Signum(elec.re)),
      Norm(elec))
  }

  /** The status says which way power flows, and the reported consumption is
      its magnitude either way: the signed value while charging, its negation
      while discharging, and at most the threshold while idle. */
  lemma StatusAndConsumption(bp: BatteryProperties)
    requires bp.electricityConsumption.Some?
    ensures var info := FromProperties(bp);
      var p := SignedPower(bp.electricityConsumption.value);
      && (info.status == Charging ==> bp.electricityConsumption.value.re >= 0.0 && info.consumption == p)
      && (info.status == Discharging ==> bp.electricityConsumption.value.re < 0.0 && info.consumption == -p)
      && (info.status == Idle ==> info.consumption <= StatusThreshold)
  {
  }

  predicate Ascending(xs: seq<real>)
  {
    forall i, j :: 0 <= i <= j < |xs| ==> xs[i] <= xs[j]
  }

  /** For the power table a battery reports (ascending, from the largest
      discharge to the largest charge), `max_charge` bounds every entry from
      above and `-max_discharge` from below. */
  lemma PowerLimits(bp: BatteryProperties)
    requires bp.electricityConsumption.Some?
    requires Ascending(bp.chargingPowers) && bp.chargingPowers != []
    ensures forall i :: 0 <= i < |bp.chargingPowers| ==>
      -FromProperties(bp).maxDischarge <= bp.chargingPowers[i] <= FromProperties(bp).maxCharge
    ensures FromProperties(bp).maxCharge in bp.chargingPowers
    ensures -FromProperties(bp).maxDischarge in bp.chargingPowers
  {
  }

  /** An empty power table reports 0 for both limits. */
  lemma EmptyPowerTable(bp: BatteryProperties)
    requires bp.electricityConsumption.Some? && bp.chargingPowers == []
    ensures FromProperties(bp).maxCharge == 0.0 && FromProperties(bp).maxDischarge == 0.0
  {
  }

  /** `get_by_id`: 500 on any error, otherwise the derived view (the
      `unwrap` in `From` cannot fail after a successful fetch). */
  ghost function GetById(reply: Reply<BatteryProperties>): (r: Response<BatteryInfo>)
    requires reply.Received? ==> ElectricityReadable(reply.body)
    ensures !r.BadRequest400?
    ensures r.InternalError500? <==> GetBatteryProperties(reply).Err?
    ensures r.Ok200? ==> r.body == FromProperties(GetBatteryProperties(reply).value)
  {
    match GetBatteryProperties(reply)
    case Err(e) => InternalError500(e)
    case Ok(bp) => Ok200(FromProperties(bp))
  }
}
