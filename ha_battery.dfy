/** ha/config/custom_components/demkit/demkit/battery.py: the hub
    integration's battery readings and its target setter, over the JSON the
    gateway's battery endpoint serves for house 0, battery 0. */
module HaBattery {
  import opened Wrappers
  import opened Demkit
  import BatteryApi
  import BatteryResource

  const BatteryPath: string := "/houses/0/battery/0"
  const ChargingName: string := "Charging"
  const DischargingName: string := "Discharging"
  const PercentScale: real := 100.0

  /** The fields of the gateway's battery JSON that these functions read;
      `status` is the variant name serde writes. */
  datatype HaBatteryInfo = HaBatteryInfo(
    capacity: real,
    stateOfCharge: real,
    targetSoc: Option<real>,
    status: string,
    consumption: real)

  /** `get_battery_energy_in`. */
  function EnergyIn(info: HaBatteryInfo): (e: real)
    ensures info.status == ChargingName ==> e == info.consumption
    ensures info.status != ChargingName ==> e == 0.0
  {
    if info.status == ChargingName then info.consumption else 0.0
  }

  /** `get_battery_energy_out`. */
  function EnergyOut(info: HaBatteryInfo): (e: real)
    ensures info.status == DischargingName ==> e == info.consumption
    ensures info.status != DischargingName ==> e == 0.0
  {
    if info.status == DischargingName then info.consumption else 0.0
  }

  /** One snapshot never reports energy flowing both ways. */
  lemma InOrOut(info: HaBatteryInfo)
    ensures EnergyIn(info) == 0.0 || EnergyOut(info) == 0.0
  {
  }

  /** Python `x / capacity`; a zero capacity raises `ZeroDivisionError`. */
  function StateOfCharge(info: HaBatteryInfo): (p: real)
    requires info.capacity != 0.0
    ensures p * info.capacity == info.stateOfCharge * PercentScale
  {
    info.stateOfCharge / info.capacity * PercentScale
  }

  function TargetPercent(info: HaBatteryInfo): (p: Option<real>)
    requires info.capacity != 0.0
    ensures p.None? <==> info.targetSoc.None?
    ensures p.Some? ==> p.value * info.capacity == info.targetSoc.value * PercentScale
  {
    match info.targetSoc
    case None => None
    case Some(t) => Some(t / info.capacity * PercentScale)
  }

  /** Python `int(x)`: truncation toward zero. */
  function Trunc(x: real): (n: int)
    ensures x >= 0.0 ==> n as real <= x < n as real + 1.0
    ensures x < 0.0 ==> n as real - 1.0 < x <= n as real
  {
    if x >= 0.0 then x.Floor else -((-x).Floor)
  }

  /** `set_target_soc`: a percentage becomes whole watt-hours of the
      capacity; `None` is forwarded. */
  function TargetToSend(target: Option<real>, capacity: real): (t: Option<int>)
    ensures t.None? <==> target.None?
    ensures t.Some? ==> t.value == Trunc(target.value / PercentScale * capacity)
  {
    match target
    case None => None
    case Some(p) => Some(Trunc(p / PercentScale * capacity))
  }

  /** Setting a non-negative percentage and reading it back loses less than
      one watt-hour's worth of percent, and never rounds up. */
  lemma TargetReadBack(p: real, info: HaBatteryInfo)
    requires info.capacity > 0.0 && p >= 0.0
    requires info.targetSoc == Some(TargetToSend(Some(p), info.capacity).value as real)
    ensures TargetPercent(info).Some?
    ensures p - PercentScale / info.capacity < TargetPercent(info).value <= p
  {
    var c := info.capacity;
    var w := p / PercentScale * c;
    var n := Trunc(w);
    assert n as real <= w < n as real + 1.0;
    assert TargetToSend(Some(p), c).value == n;
    assert info.targetSoc.value == n as real;
    var q := TargetPercent(info).value;
    assert q * c == n as real * PercentScale;
    assert q <= p by {
      assert q * c <= w * PercentScale;
      assert w * PercentScale == p * c;
    }
    assert p - PercentScale / c < q by {
      assert (w - 1.0) * PercentScale < q * c;
      assert (w - 1.0) * PercentScale == p * c - PercentScale;
      assert (p - PercentScale / c) * c == p * c - PercentScale;
    }
  }

  /** serde's name for each gateway status. */
  function StatusName(s: BatteryResource.BatteryStatus): (n: string)
  {
    match s
    case Charging => ChargingName
    case Discharging => DischargingName
    case Idle => "Idle"
  }

  /** What the integration reads from the gateway's view. */
  function FromGateway(info: BatteryResource.BatteryInfo): HaBatteryInfo
  {
    HaBatteryInfo(info.capacity, info.stateOfCharge, info.targetSoc, StatusName(info.status), info.consumption)
  }

  /** Across the two sides: for the view the gateway derives from the
      simulator's reading, energy in is the signed power while charging and
      energy out its negation while discharging, so in minus out is the
      signed power outside the idle band, and both are 0 inside it. */
  lemma EnergyMatchesGateway(bp: BatteryApi.BatteryProperties)
    requires bp.electricityConsumption.Some?
    ensures var info := FromGateway(BatteryResource.FromProperties(bp));
      var p := SignedPower(bp.electricityConsumption.value);
      && EnergyIn(info) >= 0.0 && EnergyOut(info) >= 0.0
      && (p > BatteryResource.StatusThreshold ==> EnergyIn(info) == p && EnergyOut(info) == 0.0)
      && (p < -BatteryResource.StatusThreshold ==> EnergyOut(info) == -p && EnergyIn(info) == 0.0)
      && (-BatteryResource.StatusThreshold <= p <= BatteryResource.StatusThreshold ==> EnergyIn(info) == 0.0 && EnergyOut(info) == 0.0)
  {
    BatteryResource.StatusAndConsumption(bp);
    assert "Idle" != ChargingName && "Idle" != DischargingName;
  }
}
