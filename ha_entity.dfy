/** hems-core/src/api/ha/entity.rs (with the types of hems-core/src/api/ha.rs):
    the gateway's client for the home-automation hub. The hub's base URL is
    left out: paths are given from "/api" on. */
module HaEntity {
  import opened Wrappers
  import opened Json
  import opened Demkit

  /** `ha::ApiError`. */
  datatype HaError =
    | HaReqwestError(detail: string)
    | HaSerdeError
    | HomeAssistantError(message: string)
    | LoadMapError(message: string)

  /** `EntityState`; `consumption` is read from the hub's "state" field. */
  datatype EntityState = EntityState(entityId: string, consumption: string)

  /** What the hub did with one request: the send failed, or it answered with
      a status and a body that may or may not decode. */
  datatype HubReply<+T> = SendFailed(detail: string) | Answered(success: bool, body: Reply<T>)

  const StatesPath: string := "/api/states/"
  const ServicesPath: string := "/api/services/"
  const ConsumptionFailed: string := "Failed to get device consumption"
  const NotInLoadMap: string := "Device not found in load map"
  const On: string := "on"
  const Zero: string := "0"

  /** `str::parse::<f64>().is_ok()`, library code: only the fact that empty
      text is not a number is used. */
  ghost predicate ParsesAsF64(s: string)
    ensures s == [] ==> !ParsesAsF64(s)
  {
    var b: bool :| s == [] ==> !b; b
  }

  /** `/api/states/{entity_id}`, the URL the state calls use. */
  function StatePath(entityId: string): (p: string)
    ensures |p| == |StatesPath| + |entityId|
    ensures p[..|StatesPath|] == StatesPath && p[|StatesPath|..] == entityId
  {
    StatesPath + entityId
  }

  /** The state URL names exactly one entity. */
  lemma StatePathInjective(a: string, b: string)
    requires StatePath(a) == StatePath(b)
    ensures a == b
  {
    assert a == StatePath(a)[|StatesPath|..] == StatePath(b)[|StatesPath|..] == b;
  }

  /** `get_entity_consumption` with the load-override table as it is read. */
  ghost function GetEntityConsumption(entityId: string, loadMap: map<string, string>, reply: HubReply<EntityState>): (r: Result<EntityState, HaError>)
    ensures reply.SendFailed? ==> r == Err(HaReqwestError(reply.detail))
    ensures reply.Answered? && !reply.success ==> r == Err(HomeAssistantError(ConsumptionFailed))
    ensures reply.Answered? && reply.success && reply.body.Failed? ==> r == Err(HaReqwestError(reply.body.detail))
    ensures r.Ok? ==> r.value.entityId == entityId
    ensures reply.Answered? && reply.success && reply.body.Received? ==>
      var state := reply.body.body.consumption;
      && (entityId in loadMap && state == On ==> r == Ok(EntityState(entityId, loadMap[entityId])))
      && (entityId in loadMap && state != On ==> r == Ok(EntityState(entityId, Zero)))
      && (entityId !in loadMap && !ParsesAsF64(state) ==> r == Err(LoadMapError(NotInLoadMap)))
      && (entityId !in loadMap && ParsesAsF64(state) ==> r == Ok(EntityState(entityId, state)))
  {
    match reply
    case SendFailed(d) => Err(HaReqwestError(d))
    case Answered(success, body) =>
      if !success then Err(HomeAssistantError(ConsumptionFailed))
      else match body
        case Failed(d) => Err(HaReqwestError(d))
        case Received(state) =>
          if entityId in loadMap then
            Ok(EntityState(entityId, if state.consumption == On then loadMap[entityId] else Zero))
          else if !ParsesAsF64(state.consumption) then Err(LoadMapError(NotInLoadMap))
          else Ok(EntityState(entityId, state.consumption))
  }

  /** The table is consulted only for a successful, decoded answer: any other
      reply gives the same error whatever the table holds. */
  lemma FailureIgnoresLoadMap(entityId: string, m1: map<string, string>, m2: map<string, string>, reply: HubReply<EntityState>)
    requires !(reply.Answered? && reply.success && reply.body.Received?)
    ensures GetEntityConsumption(entityId, m1, reply) == GetEntityConsumption(entityId, m2, reply)
    ensures GetEntityConsumption(entityId, m1, reply).Err?
  {
  }

  /** A mapped entity never fails once the hub answered, and it reports
      either its override or "0"; an empty state of an unmapped entity is
      refused. */
  lemma MappedEntityOutcomes(entityId: string, loadMap: map<string, string>, state: EntityState)
    ensures var r := GetEntityConsumption(entityId, loadMap, Answered(true, Received(state)));
      && (entityId in loadMap ==> r.Ok? && (r.value.consumption == loadMap[entityId] || r.value.consumption == Zero))
      && (entityId !in loadMap && state.consumption == [] ==> r == Err(LoadMapError(NotInLoadMap)))
  {
  }

  /** `entity_id.split(".").next().unwrap_or_default()`: the text before the
      first '.', or all of it when there is none. */
  function Domain(entityId: string): (d: string)
    ensures d <= entityId
    ensures '.' !in d
    ensures |d| < |entityId| ==> entityId[|d|] == '.'
  {
    if entityId == [] || entityId[0] == '.' then []
    else [entityId[0]] + Domain(entityId[1..])
  }

  /** The domain of "light.kitchen" is "light", and a domain without a dot
      is the whole id. */
  lemma {:induction false} DomainOfDotted(d: string, rest: string)
    requires '.' !in d
    ensures Domain(d + "." + rest) == d
    ensures Domain(d) == d
  {
    if d != [] {
      assert (d + "." + rest)[1..] == d[1..] + "." + rest;
      DomainOfDotted(d[1..], rest);
    } else {
      assert (d + "." + rest) == "." + rest;
    }
  }

  function ServiceName(on: bool): string
  {
    if on then "turn_on" else "turn_off"
  }

  /** The path `toggle_entity_state` posts to, and the body it sends. */
  function TogglePath(entityId: string, on: bool): (p: string)
    ensures |p| == |ServicesPath| + |Domain(entityId)| + 1 + |ServiceName(on)|
    ensures p[..|ServicesPath|] == ServicesPath
    ensures p[|ServicesPath|..|ServicesPath| + |Domain(entityId)|] == Domain(entityId)
    ensures p[|ServicesPath| + |Domain(entityId)|..] == "/" + ServiceName(on)
  {
    var head := ServicesPath + Domain(entityId);
    var tail := "/" + ServiceName(on);
    assert head[|ServicesPath|..] == Domain(entityId);
    assert (head + tail)[..|head|] == head && (head + tail)[|head|..] == tail;
    head + tail
  }

  function ToggleBody(entityId: string): (j: Json)
    ensures j.JObject? && |j.entries| == 1
    ensures j.entries[0] == ("entity_id", JString(entityId))
  {
    JObject([("entity_id", JString(entityId))])
  }

  /** Turning on and turning off reach the same domain and differ only in
      the service. */
  lemma ToggleOnOffDiffer(entityId: string)
    ensures TogglePath(entityId, true) != TogglePath(entityId, false)
    ensures TogglePath(entityId, true)[..|ServicesPath| + |Domain(entityId)|]
         == TogglePath(entityId, false)[..|ServicesPath| + |Domain(entityId)|]
  {
    var k := |ServicesPath| + |Domain(entityId)|;
    assert TogglePath(entityId, true)[k + 1..] == "turn_on";
    assert TogglePath(entityId, false)[k + 1..] == "turn_off";
  }

  const SetStateFailedPrefix: string := "Failed to set entity state: "
  const UnknownError: string := "Unknown error"

  /** The outcome of `toggle_entity_state`: on a non-success status the body
      text is quoted, "Unknown error" when it cannot be read. */
  function ToggleResult(reply: HubReply<Json>, errorText: Option<string>): (r: Result<Json, HaError>)
    ensures reply.SendFailed? ==> r == Err(HaReqwestError(reply.detail))
    ensures r.Ok? <==> reply.Answered? && reply.success && reply.body.Received?
    ensures r.Ok? ==> r.value == reply.body.body
    ensures reply.Answered? && !reply.success ==>
      r == Err(HomeAssistantError(SetStateFailedPrefix + (if errorText.Some? then errorText.value else UnknownError)))
    ensures reply.Answered? && reply.success && reply.body.Failed? ==> r == Err(HaReqwestError(reply.body.detail))
  {
    match reply
    case SendFailed(d) => Err(HaReqwestError(d))
    case Answered(success, body) =>
      if !success then
        Err(HomeAssistantError(SetStateFailedPrefix + (match errorText case Some(t) => t case None => UnknownError)))
      else match body
        case Failed(d) => Err(HaReqwestError(d))
        case Received(j) => Ok(j)
  }
}
