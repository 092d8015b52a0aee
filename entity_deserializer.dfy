/** demkit/demkit/components/util/entities/EntityDeserializer.py: the
    simulator reads the gateway's `{type, entity}` body back into one of
    thirteen entity classes. The request body is the JSON the gateway sent;
    a dict is a JSON object in which the last duplicate key wins. */
module EntityDeserializer {
  import opened Wrappers
  import opened Json
  import opened Text
  import Env

  datatype EntityClass =
    | HostEntity | WeatherEntity | SunEntity | MeterEntity | CurtEntity
    | SolarPanelEntity | TimeShiftableEntity | BatteryEntity | ZoneEntity
    | ThermostatEntity | DhwEntity | HeatSourceEntity | HeatPumpEntity

  /** `entity_types`. */
  const EntityTypes: map<string, EntityClass> := map[
    "host" := HostEntity,
    "weather" := WeatherEntity,
    "sun" := SunEntity,
    "meter" := MeterEntity,
    "curt" := CurtEntity,
    "solar_panel" := SolarPanelEntity,
    "timeshiftable" := TimeShiftableEntity,
    "battery" := BatteryEntity,
    "zone" := ZoneEntity,
    "thermostat" := ThermostatEntity,
    "dhw" := DhwEntity,
    "heat_source" := HeatSourceEntity,
    "heat_pump" := HeatPumpEntity
  ]

  /** The Python exceptions `deserialize` can raise. */
  datatype PyError = ValueError(message: string) | AttributeError | TypeError

  /** An entity object: its class and the keyword arguments it is built from. */
  datatype ModelEntity = ModelEntity(cls: EntityClass, params: map<string, Json>)

  const TypeMissing: string := "Entity type is missing"
  const ParamsMissing: string := "Entity params is missing"
  const UnknownPrefix: string := "Unknown entity type: "

  /** Python's `p in s` on strings. */
  predicate IsSubstring(p: string, s: string)
    decreases |s|
  {
    |p| <= |s| && (s[..|p|] == p || (|s| > 0 && IsSubstring(p, s[1..])))
  }

  /** Python's `key in data` for any JSON value: a dict tests its keys, a
      list its elements, a string its substrings; other values are not
      iterable and raise `TypeError`. */
  function Contains(data: Json, key: string): Result<bool, PyError>
  {
    match data
    case JObject(entries) => Ok(key in ObjectToDict(entries))
    case JArray(items) => Ok(JString(key) in items)
    case JString(s) => Ok(IsSubstring(key, s))
    case _ => Err(TypeError)
  }

  /** `GenericEntity.from_dict`: both keys must be present; `data.get` then
      only exists on a dict. */
  function FromDict(data: Json): (r: Result<(Json, Json), PyError>)
    ensures data.JObject? ==>
      var d := ObjectToDict(data.entries);
      && (r.Ok? <==> "type" in d && "entity" in d)
      && (r.Ok? ==> r.value == (d["type"], d["entity"]))
      && ("type" !in d ==> r == Err(ValueError(TypeMissing)))
      && ("type" in d && "entity" !in d ==> r == Err(ValueError(ParamsMissing)))
    ensures !data.JObject? ==> r.Err?
  {
    var hasType := Contains(data, "type");
    if hasType.Err? then Err(hasType.error)
    else if !hasType.value then Err(ValueError(TypeMissing))
    else
      var hasEntity := Contains(data, "entity");
      if hasEntity.Err? then Err(hasEntity.error)
      else if !hasEntity.value then Err(ValueError(ParamsMissing))
      else if data.JObject? then
        var d := ObjectToDict(data.entries);
        Ok((d["type"], d["entity"]))
      else Err(AttributeError)
  }

  /** `deserialize`: lower-case the tag (only strings have `.lower()`), look it
      up, and build the class from the params dict (`**` needs a mapping).
      The classes' own keyword checks are not part of this model. */
  function Deserialize(data: Json): (r: Result<ModelEntity, PyError>)
    ensures r.Ok? ==> FromDict(data).Ok? && FromDict(data).value.0.JString?
    ensures r.Ok? ==>
      var (t, params) := FromDict(data).value;
      && Lower(t.s) in EntityTypes
      && r.value.cls == EntityTypes[Lower(t.s)]
      && params.JObject?
      && r.value.params == ObjectToDict(params.entries)
    ensures FromDict(data).Err? ==> r == Err(FromDict(data).error)
    ensures FromDict(data).Ok? && !FromDict(data).value.0.JString? ==> r == Err(AttributeError)
    ensures FromDict(data).Ok? && FromDict(data).value.0.JString? && Lower(FromDict(data).value.0.s) !in EntityTypes ==>
      r == Err(ValueError(UnknownPrefix + Lower(FromDict(data).value.0.s)))
  {
    var generic := FromDict(data);
    if generic.Err? then Err(generic.error)
    else
      var (t, params) := generic.value;
      if !t.JString? then Err(AttributeError)
      else
        var entityType := Lower(t.s);
        if entityType !in EntityTypes then Err(ValueError(UnknownPrefix + entityType))
        else if !params.JObject? then Err(TypeError)
        else Ok(ModelEntity(EntityTypes[entityType], ObjectToDict(params.entries)))
  }

  /** Case variants of a tag select the same class. */
  lemma CaseInsensitive(t: string, params: Json)
    ensures Deserialize(JObject([("type", JString(t)), ("entity", params)]))
         == Deserialize(JObject([("type", JString(Lower(t))), ("entity", params)]))
  {
    LowerIdempotent(t);
    TwoEntryDict(JString(t), params);
    TwoEntryDict(JString(Lower(t)), params);
  }

  lemma TwoEntryDict(t: Json, params: Json)
    ensures ObjectToDict([("type", t), ("entity", params)]) == map["type" := t, "entity" := params]
  {
    var e := [("type", t), ("entity", params)];
    assert e[..1] == [("type", t)];
    assert e[..1][..0] == [];
  }

  /** The class the simulator builds for each gateway variant. */
  function ClassOf(v: Env.Variant): EntityClass
  {
    match v
    case HostV => HostEntity
    case WeatherV => WeatherEntity
    case SunV => SunEntity
    case TimeShifterV => TimeShiftableEntity
    case BatteryV => BatteryEntity
    case SolarV => SolarPanelEntity
    case CurtV => CurtEntity
    case ZoneV => ZoneEntity
    case MeterV => MeterEntity
    case ThermostatV => ThermostatEntity
    case DhwV => DhwEntity
    case HeatSourceV => HeatSourceEntity
    case HeatPumpV => HeatPumpEntity
  }

  /** Every tag `Entity::new` emits is a key of `entity_types`, and it
      selects the class of the same variant. */
  lemma TagsAreKnown(v: Env.Variant)
    ensures Env.TypeTag(v) in EntityTypes
    ensures EntityTypes[Env.TypeTag(v)] == ClassOf(v)
  {
  }

  /** Cross-side round trip: whatever the gateway's `Entity::new` sends, the
      simulator deserialises to the class of that variant, built from the
      serialised parameters, whose "name" is the name the gateway chose. */
  lemma GatewayEntityRoundTrip(p: Env.EntityParams)
    ensures Deserialize(Env.EntityJson(Env.NewEntity(p))).Ok?
    ensures Deserialize(Env.EntityJson(Env.NewEntity(p))).value.cls == ClassOf(Env.VariantOf(p))
    ensures Deserialize(Env.EntityJson(Env.NewEntity(p))).value.params == ObjectToDict(Env.ParamsValue(p).entries)
    ensures "name" in Deserialize(Env.EntityJson(Env.NewEntity(p))).value.params
    ensures Deserialize(Env.EntityJson(Env.NewEntity(p))).value.params["name"] == JString(p.name)
  {
    var e := Env.NewEntity(p);
    TwoEntryDict(JString(e.typeTag), e.entity);
    TagsAreKnown(Env.VariantOf(p));
    LowerIdempotent(e.typeTag);
    NameSurvives(Env.ParamsValue(p).entries, p.name);
  }

  /** A key that only the first entry carries keeps that entry's value. */
  lemma {:induction false} NameSurvives(entries: seq<(string, Json)>, name: string)
    requires |entries| >= 1 && entries[0] == ("name", JString(name))
    requires forall i :: 1 <= i < |entries| ==> entries[i].0 != "name"
    ensures "name" in ObjectToDict(entries) && ObjectToDict(entries)["name"] == JString(name)
    decreases |entries|
  {
    if |entries| > 1 {
      var init := entries[..|entries| - 1];
      assert forall i :: 1 <= i < |init| ==> init[i] == entries[i];
      NameSurvives(init, name);
    } else {
      assert entries[..0] == [];
    }
  }

  /** Distinct variants reach distinct classes: the tags never collide. */
  lemma ClassDeterminesVariant(p: Env.EntityParams, q: Env.EntityParams)
    requires Deserialize(Env.EntityJson(Env.NewEntity(p))).Ok?
    requires Deserialize(Env.EntityJson(Env.NewEntity(p))) == Deserialize(Env.EntityJson(Env.NewEntity(q)))
    ensures Env.VariantOf(p) == Env.VariantOf(q)
    ensures p.name == q.name
  {
    GatewayEntityRoundTrip(p);
    GatewayEntityRoundTrip(q);
  }

  lemma MissingKeyExamples()
    ensures Deserialize(JObject([("entity", JObject([]))])) == Err(ValueError(TypeMissing))
    ensures Deserialize(JObject([("type", JString("host"))])) == Err(ValueError(ParamsMissing))
    ensures Deserialize(JInt(0)) == Err(TypeError)
  {
    var e1 := [("entity", JObject([]))];
    assert e1[..0] == [];
    var e2 := [("type", JString("host"))];
    assert e2[..0] == [];
  }

  lemma UnknownTagExample()
    ensures Deserialize(JObject([("type", JString("Nuclear")), ("entity", JObject([]))])) == Err(ValueError(UnknownPrefix + "nuclear"))
  {
    TwoEntryDict(JString("Nuclear"), JObject([]));
    assert Lower("Nuclear") == "nuclear";
  }

  lemma WrongShapeExamples()
    ensures Deserialize(JObject([("type", JInt(3)), ("entity", JObject([]))])) == Err(AttributeError)
    ensures Deserialize(JObject([("type", JString("HOST")), ("entity", JNull)])) == Err(TypeError)
  {
    TwoEntryDict(JInt(3), JObject([]));
    TwoEntryDict(JString("HOST"), JNull);
    assert Lower("HOST") == "host";
  }
}
