/** hems-core/src/api/demkit/env.rs: what the gateway sends to the
    simulator's composer. Every entity is a type tag plus its serialised
    parameters; house-scoped devices are renamed `{name}-House-{id}` before
    they are sent, and removal addresses the same name. */
module Env {
  import opened Wrappers
  import opened Json
  import opened Text
  import opened Demkit

  /** `InternalComplex`: the serialisable `{re, im}` copy of a complex number. */
  datatype InternalComplex = InternalComplex(re: real, im: real)

  /** `From<Complex<f64>> for InternalComplex`. */
  function FromComplex(c: ComplexValue): (r: InternalComplex)
    ensures r.re == c.re && r.im == c.im
  {
    InternalComplex(c.re, c.im)
  }

  function ToComplex(c: InternalComplex): ComplexValue
  {
    ComplexValue(c.re, c.im)
  }

  /** The copy loses nothing: it converts back to the same number, and
      different numbers give different copies. */
  lemma FromComplexRoundTrip(c: ComplexValue, d: ComplexValue)
    ensures ToComplex(FromComplex(c)) == c
    ensures FromComplex(c) == FromComplex(d) ==> c == d
  {
  }

  /** `EntityParams`: the thirteen parameter records, each with a `name`. */
  datatype EntityParams =
    | Host(name: string)
    | Weather(name: string)
    | Sun(name: string)
    | TimeShifter(name: string, profile: seq<InternalComplex>, timeBase: nat)
    | Battery(name: string)
    | Solar(name: string)
    | Curt(name: string, filename: string, filenameReactive: string, column: nat, timeBase: nat)
    | Zone(name: string, rFloor: real, rEnvelope: real, cFloor: real, cZone: real, initialTemperature: real)
    | Meter(name: string, commodities: seq<string>, weights: seq<(string, real)>)
    | Thermostat(name: string, temperatureSetpointHeating: real, temperatureSetpointCooling: real,
                 temperatureMin: real, temperatureMax: real, temperatureDeadband: seq<real>, preheatingTime: real)
    | Dhw(name: string)
    | HeatSource(name: string)
    | HeatPump(name: string, producingTemperatures: seq<real>, producingPowers: seq<real>)

  /** The variant alone, without its parameters. */
  datatype Variant =
    | HostV | WeatherV | SunV | TimeShifterV | BatteryV | SolarV | CurtV
    | ZoneV | MeterV | ThermostatV | DhwV | HeatSourceV | HeatPumpV

  function VariantOf(p: EntityParams): Variant
  {
    match p
    case Host(_) => HostV
    case Weather(_) => WeatherV
    case Sun(_) => SunV
    case TimeShifter(_, _, _) => TimeShifterV
    case Battery(_) => BatteryV
    case Solar(_) => SolarV
    case Curt(_, _, _, _, _) => CurtV
    case Zone(_, _, _, _, _, _) => ZoneV
    case Meter(_, _, _) => MeterV
    case Thermostat(_, _, _, _, _, _, _) => ThermostatV
    case Dhw(_) => DhwV
    case HeatSource(_) => HeatSourceV
    case HeatPump(_, _, _) => HeatPumpV
  }

  /** The type strings of `Entity::new`. */
  function TypeTag(v: Variant): (t: string)
    ensures |t| >= 3
    ensures HasNoUpper(t)
  {
    match v
    case HostV => "host"
    case WeatherV => "weather"
    case SunV => "sun"
    case TimeShifterV => "timeshiftable"
    case BatteryV => "battery"
    case SolarV => "solar_panel"
    case CurtV => "curt"
    case ZoneV => "zone"
    case MeterV => "meter"
    case ThermostatV => "thermostat"
    case DhwV => "dhw"
    case HeatSourceV => "heat_source"
    case HeatPumpV => "heat_pump"
  }

  function RealArray(xs: seq<real>): Json
  {
    JArray(seq(|xs|, i requires 0 <= i < |xs| => JFloat(xs[i])))
  }

  function ComplexJson(c: InternalComplex): Json
  {
    JObject([("re", JFloat(c.re)), ("im", JFloat(c.im))])
  }

  /** The serialised fields other than `name`, with serde's camelCase keys. */
  function OtherFields(p: EntityParams): seq<(string, Json)>
  {
    match p
    case TimeShifter(_, profile, timeBase) =>
      [("profile", JArray(seq(|profile|, i requires 0 <= i < |profile| => ComplexJson(profile[i])))),
       ("timeBase", JInt(timeBase))]
    case Curt(_, filename, filenameReactive, column, timeBase) =>
      [("filename", JString(filename)), ("filenameReactive", JString(filenameReactive)),
       ("column", JInt(column)), ("timeBase", JInt(timeBase))]
    case Zone(_, rFloor, rEnvelope, cFloor, cZone, initialTemperature) =>
      [("rFloor", JFloat(rFloor)), ("rEnvelope", JFloat(rEnvelope)), ("cFloor", JFloat(cFloor)),
       ("cZone", JFloat(cZone)), ("initialTemperature", JFloat(initialTemperature))]
    case Meter(_, commodities, weights) =>
      [("commodities", JArray(seq(|commodities|, i requires 0 <= i < |commodities| => JString(commodities[i])))),
       ("weights", JArray(seq(|weights|, i requires 0 <= i < |weights| => JArray([JString(weights[i].0), JFloat(weights[i].1)]))))]
    case Thermostat(_, heating, cooling, tmin, tmax, deadband, preheating) =>
      [("temperatureSetpointHeating", JFloat(heating)), ("temperatureSetpointCooling", JFloat(cooling)),
       ("temperatureMin", JFloat(tmin)), ("temperatureMax", JFloat(tmax)),
       ("temperatureDeadband", RealArray(deadband)), ("preheatingTime", JFloat(preheating))]
    case HeatPump(_, temperatures, powers) =>
      [("producingTemperatures", RealArray(temperatures)), ("producingPowers", RealArray(powers))]
    case _ => []
  }

  /** `serde_json::to_value(params)`: an object whose first entry is the name
      and whose other keys are all different from "name". */
  function ParamsValue(p: EntityParams): (j: Json)
    ensures j.JObject? && |j.entries| >= 1 && j.entries[0] == ("name", JString(p.name))
    ensures forall i :: 1 <= i < |j.entries| ==> j.entries[i].0 != "name"
  {
    var rest := OtherFields(p);
    assert forall i :: 0 <= i < |rest| ==> |rest[i].0| != |"name"|;
    JObject([("name", JString(p.name))] + rest)
  }

  /** `Entity { type, entity }`. */
  datatype Entity = Entity(typeTag: string, entity: Json)

  /** `Entity::new`. */
  function NewEntity(p: EntityParams): (e: Entity)
    ensures e.typeTag == TypeTag(VariantOf(p))
    ensures e.entity == ParamsValue(p)
  {
    Entity(TypeTag(VariantOf(p)), ParamsValue(p))
  }

  /** The JSON body of `PUT /composer/entities`. */
  function EntityJson(e: Entity): Json
  {
    JObject([("type", JString(e.typeTag)), ("entity", e.entity)])
  }

  /** Every variant gets its own tag, so the tag alone tells the variant. */
  lemma {:induction false} TypeTagInjective(v: Variant, w: Variant)
    requires TypeTag(v) == TypeTag(w)
    ensures v == w
  {
    var t := TypeTag(v);
    // Length and the first, third and last characters separate all thirteen tags.
    assert t == TypeTag(w);
    assert |t| == |TypeTag(w)| && t[0] == TypeTag(w)[0] && t[2] == TypeTag(w)[2] && t[|t| - 1] == TypeTag(w)[|t| - 1];
  }

  // ---------------------------------------------------------------------
  // Names.

  const HousePrefix: string := "House-"

  /** `add_host`: `House-{id}`. */
  function HostName(houseId: nat): (s: string)
    ensures |s| == |HousePrefix| + |DecimalString(houseId)|
    ensures s[..|HousePrefix|] == HousePrefix && s[|HousePrefix|..] == DecimalString(houseId)
  {
    HousePrefix + DecimalString(houseId)
  }

  /** The names `add_weather`, `add_sun`, `add_battery` and `add_solar` choose. */
  function WeatherName(houseId: nat): string { HouseScoped("Weather", houseId) }
  function SunName(houseId: nat): string { HouseScoped("Sun", houseId) }
  function BatteryName(houseId: nat): string { HouseScoped("Battery", houseId) }
  function SolarName(houseId: nat): string { HouseScoped("PV", houseId) }

  /** The variants `add_*` sends under a caller-chosen name. */
  predicate CallerNamed(p: EntityParams)
  {
    p.TimeShifter? || p.Curt? || p.Zone? || p.Meter? || p.Thermostat? || p.Dhw? || p.HeatSource? || p.HeatPump?
  }

  /** `inner.name = format!("{name}-House-{house_id}")`: only the name changes. */
  function Scoped(houseId: nat, p: EntityParams): (q: EntityParams)
    ensures VariantOf(q) == VariantOf(p)
    ensures q.name == HouseScoped(p.name, houseId)
    ensures q.(name := p.name) == p
  {
    p.(name := HouseScoped(p.name, houseId))
  }

  /** The entity each `add_*` function sends; the fixed-name functions take
      no caller parameters, and the others rename what they are given. */
  datatype AddRequest =
    | AddHost | AddWeather | AddSun | AddBattery | AddSolar
    | AddNamed(params: EntityParams)

  predicate WellFormedRequest(r: AddRequest)
  {
    r.AddNamed? ==> CallerNamed(r.params)
  }

  function RequestEntity(houseId: nat, r: AddRequest): (e: Entity)
    requires WellFormedRequest(r)
    ensures r.AddHost? ==> e == NewEntity(Host(HostName(houseId)))
    ensures r.AddWeather? ==> e == NewEntity(Weather(WeatherName(houseId)))
    ensures r.AddSun? ==> e == NewEntity(Sun(SunName(houseId)))
    ensures r.AddBattery? ==> e == NewEntity(Battery(BatteryName(houseId)))
    ensures r.AddSolar? ==> e == NewEntity(Solar(SolarName(houseId)))
    ensures r.AddNamed? ==> e == NewEntity(Scoped(houseId, r.params))
  {
    match r
    case AddHost => NewEntity(Host(HostName(houseId)))
    case AddWeather => NewEntity(Weather(WeatherName(houseId)))
    case AddSun => NewEntity(Sun(SunName(houseId)))
    case AddBattery => NewEntity(Battery(BatteryName(houseId)))
    case AddSolar => NewEntity(Solar(SolarName(houseId)))
    case AddNamed(p) => NewEntity(Scoped(houseId, p))
  }

  /** The action each function puts in its failure message. */
  function FailureLabel(r: AddRequest): string
    requires WellFormedRequest(r)
  {
    match r
    case AddHost => "set host"
    case AddWeather => "add weather"
    case AddSun => "add sun"
    case AddBattery => "set battery"
    case AddSolar => "set solar"
    case AddNamed(p) =>
      match VariantOf(p)
      case TimeShifterV => "set timeshifter"
      case CurtV => "set curt"
      case ZoneV => "set zone"
      case MeterV => "set meter"
      case ThermostatV => "set thermostat"
      case DhwV => "set dhw"
      case HeatSourceV => "set heat source"
      case _ => "set heat pump"
  }

  /** What the composer answered: the send may fail, and on a non-success
      status the body text is read, which may fail too. */
  datatype ComposerReply = SendFailed(detail: string) | Responded(success: bool, text: Reply<string>)

  /** The common tail of every composer call in env.rs. */
  function ComposerOutcome(action: string, reply: ComposerReply): (r: Outcome<ApiError>)
    ensures r.Pass? <==> reply.Responded? && reply.success
    ensures reply.SendFailed? ==> r == Fail(ReqwestError(reply.detail))
    ensures reply.Responded? && !reply.success && reply.text.Failed? ==> r == Fail(ReqwestError(reply.text.detail))
    ensures reply.Responded? && !reply.success && reply.text.Received? ==>
      r == Fail(DemkitError("Failed to " + action + ": " + reply.text.body))
  {
    match reply
    case SendFailed(d) => Fail(ReqwestError(d))
    case Responded(success, text) =>
      if success then Pass
      else match text
        case Failed(d) => Fail(ReqwestError(d))
        case Received(body) => Fail(DemkitError("Failed to " + action + ": " + body))
  }

  /** `add_*`: the JSON sent and the outcome. */
  function AddEntity(houseId: nat, r: AddRequest, reply: ComposerReply): (result: (Json, Outcome<ApiError>))
    requires WellFormedRequest(r)
    ensures result.0 == EntityJson(RequestEntity(houseId, r))
    ensures result.1 == ComposerOutcome(FailureLabel(r), reply)
  {
    (EntityJson(RequestEntity(houseId, r)), ComposerOutcome(FailureLabel(r), reply))
  }

  const EntitiesPath: string := "/composer/entities/"

  /** `remove_entity`: the path it deletes, under the same rename as add. */
  function RemovePath(houseId: nat, name: string): string
  {
    EntitiesPath + HouseScoped(name, houseId)
  }

  /** `remove_entity` reports any failure as a timeshifter failure, whatever was removed. */
  function RemoveOutcome(reply: ComposerReply): (r: Outcome<ApiError>)
    ensures r.Pass? <==> reply.Responded? && reply.success
    ensures reply.Responded? && !reply.success && reply.text.Received? ==>
      r == Fail(DemkitError("Failed to remove timeshifter: " + reply.text.body))
  {
    assert "Failed to " + "remove timeshifter" + ": " == "Failed to remove timeshifter: ";
    ComposerOutcome("remove timeshifter", reply)
  }

  /** Removing `name` from house `h` deletes exactly the name a caller-named
      add of `name` to `h` sent, and the fixed-name devices are reached by
      their short names. */
  lemma RemoveMatchesAdd(houseId: nat, p: EntityParams)
    requires CallerNamed(p)
    ensures RemovePath(houseId, p.name) == EntitiesPath + RequestEntity(houseId, AddNamed(p)).entity.entries[0].1.s
    ensures RemovePath(houseId, "Battery") == EntitiesPath + BatteryName(houseId)
    ensures RemovePath(houseId, "PV") == EntitiesPath + SolarName(houseId)
    ensures RemovePath(houseId, "Weather") == EntitiesPath + WeatherName(houseId)
    ensures RemovePath(houseId, "Sun") == EntitiesPath + SunName(houseId)
  {
  }

  /** The remove path determines the name and the house. */
  lemma RemovePathInjective(h1: nat, n1: string, h2: nat, n2: string)
    requires |n1| == |n2| && RemovePath(h1, n1) == RemovePath(h2, n2)
    ensures n1 == n2 && h1 == h2
  {
    var s1, s2 := HouseScoped(n1, h1), HouseScoped(n2, h2);
    assert s1 == RemovePath(h1, n1)[|EntitiesPath|..] == RemovePath(h2, n2)[|EntitiesPath|..] == s2;
    assert n1 == s1[..|n1|] == s2[..|n2|] == n2;
    HouseScopedInjective(n1, h1, h2);
  }

  /** The host's name `House-{id}` has only one '-', so no rename produces
      it: `remove_entity` can never delete the host. */
  lemma HostNotRemovable(houseId: nat, name: string, other: nat)
    ensures HouseScoped(name, other) != HostName(houseId)
  {
    var s, t := HouseScoped(name, other), HostName(houseId);
    assert s[|name|] == '-' && s[|name| + 6] == '-';
    assert forall i :: 6 <= i < |t| ==> IsDigit(t[i]) by {
      assert forall i :: 6 <= i < |t| ==> t[i] == DecimalString(houseId)[i - 6];
    }
    assert forall i :: 0 <= i < 5 ==> t[i] != '-';
  }

  /** The composer's lifecycle calls: `set_config`, `load`, `start` and `reset`. */
  datatype LifecycleStep = SetConfig | Load | Start | Reset

  const ComposerPath: string := "/composer/"

  /** The route each lifecycle call posts to. */
  function LifecyclePath(step: LifecycleStep): (p: string)
    ensures |p| > |ComposerPath| && p[..|ComposerPath|] == ComposerPath
  {
    ComposerPath + match step
      case SetConfig => "config"
      case Load => "load"
      case Start => "start"
      case Reset => "reset"
  }

  /** The action each lifecycle call names in its failure message. */
  function LifecycleLabel(step: LifecycleStep): string
  {
    match step
    case SetConfig => "set config"
    case Load => "load"
    case Start => "start"
    case Reset => "reset"
  }

  /** A lifecycle call succeeds iff the composer answers with a success
      status; a failure quotes the composer's text under the call's label. */
  function LifecycleOutcome(step: LifecycleStep, reply: ComposerReply): (r: Outcome<ApiError>)
    ensures r.Pass? <==> reply.Responded? && reply.success
    ensures reply.SendFailed? ==> r == Fail(ReqwestError(reply.detail))
    ensures reply.Responded? && !reply.success && reply.text.Received? ==>
      r == Fail(DemkitError("Failed to " + LifecycleLabel(step) + ": " + reply.text.body))
  {
    ComposerOutcome(LifecycleLabel(step), reply)
  }

  /** Each lifecycle call has its own route, and its failure message says
      which call failed. */
  lemma LifecycleStepsDistinct(s1: LifecycleStep, s2: LifecycleStep, body: string)
    requires s1 != s2
    ensures LifecyclePath(s1) != LifecyclePath(s2)
    ensures LifecycleOutcome(s1, Responded(false, Received(body))) != LifecycleOutcome(s2, Responded(false, Received(body)))
  {
    var p1, p2 := LifecyclePath(s1), LifecyclePath(s2);
    assert p1[|ComposerPath|] != p2[|ComposerPath|] || |p1| != |p2|;
    var m1 := "Failed to " + LifecycleLabel(s1) + ": " + body;
    var m2 := "Failed to " + LifecycleLabel(s2) + ": " + body;
    assert m1[10] != m2[10] || m1[|m1| - |body| - 2] != m2[|m2| - |body| - 2] || |m1| != |m2|;
  }
}
