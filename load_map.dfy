/** hems-core/src/api/demkit/ha_entity.rs: registering a hub entity with the
    simulator and recording its load override in the shared `LOAD_MAP`
    (created empty by hems-core/src/api/ha.rs). */
module LoadMap {
  import opened Wrappers
  import opened Json
  import opened Demkit
  import HaEntity

  /** The consumption value that means "no override". */
  const NoOverride: string := "-1"
  const AddFailed: string := "Failed to add device"
  const EntityPath: string := "/entity"

  /** `EntityRequest`. */
  datatype EntityRequest = EntityRequest(entityId: string, consumption: string)

  /** What the simulator did with the POST: the send failed, or it answered
      with a status that is a success or not. */
  datatype SimReply = SendFailed(detail: string) | Answered(success: bool)

  /** The body sent: only the id; the consumption stays in the gateway. */
  function RequestBody(e: EntityRequest): (j: Json)
    ensures j.JObject? && |j.entries| == 1
    ensures j.entries[0] == ("entity_id", JString(e.entityId))
  {
    JObject([("entity_id", JString(e.entityId))])
  }

  function AddOutcome(reply: SimReply): (r: Outcome<ApiError>)
    ensures r.Pass? <==> reply == Answered(true)
    ensures reply.SendFailed? ==> r == Fail(ReqwestError(reply.detail))
    ensures reply == Answered(false) ==> r == Fail(DemkitError(AddFailed))
  {
    match reply
    case SendFailed(d) => Fail(ReqwestError(d))
    case Answered(success) => if success then Pass else Fail(DemkitError(AddFailed))
  }

  /** The table after one `add_entity`. */
  function NextLoadMap(m: map<string, string>, e: EntityRequest, reply: SimReply): (r: map<string, string>)
    ensures r.Keys <= m.Keys + {e.entityId}
    ensures forall k :: k in m && k != e.entityId ==> k in r && r[k] == m[k]
    ensures e.entityId in m ==> e.entityId in r
  {
    if AddOutcome(reply).Pass? && e.consumption != NoOverride then m[e.entityId := e.consumption] else m
  }

  /** The insertion rule: a failed call or "-1" changes nothing; otherwise
      the entry is set (the last writer wins) and every other key is kept. */
  lemma InsertionRule(m: map<string, string>, e: EntityRequest, reply: SimReply)
    ensures AddOutcome(reply).Fail? ==> NextLoadMap(m, e, reply) == m
    ensures e.consumption == NoOverride ==> NextLoadMap(m, e, reply) == m
    ensures AddOutcome(reply).Pass? && e.consumption != NoOverride ==>
      e.entityId in NextLoadMap(m, e, reply) && NextLoadMap(m, e, reply)[e.entityId] == e.consumption
    ensures forall k :: k != e.entityId ==>
      (k in NextLoadMap(m, e, reply) <==> k in m) &&
      (k in m ==> NextLoadMap(m, e, reply)[k] == m[k])
    ensures NextLoadMap(m, e, reply).Keys <= m.Keys + {e.entityId}
  {
  }

  /** Two successful adds of the same id: the second one's value stays. */
  lemma LastWriterWins(m: map<string, string>, id: string, c1: string, c2: string)
    requires c2 != NoOverride
    ensures NextLoadMap(NextLoadMap(m, EntityRequest(id, c1), Answered(true)), EntityRequest(id, c2), Answered(true))
         == NextLoadMap(m, EntityRequest(id, c2), Answered(true))
  {
  }

  /** `LOAD_MAP`. */
  class LoadOverrides {
    var entries: map<string, string>

    /** `init_load_map`. */
    constructor ()
      ensures entries == map[]
    {
      entries := map[];
    }

    /** `add_entity`: send the id, then write the override if the call
        succeeded and the consumption is not "-1". */
    method AddEntity(e: EntityRequest, reply: SimReply) returns (sent: Json, r: Outcome<ApiError>)
      modifies this
      ensures sent == RequestBody(e)
      ensures r == AddOutcome(reply)
      ensures entries == NextLoadMap(old(entries), e, reply)
    {
      sent := RequestBody(e);
      r := AddOutcome(reply);
      if r.Fail? {
        return;
      }
      if e.consumption != NoOverride {
        entries := entries[e.entityId := e.consumption];
      }
    }
  }

  /** Across the two files: once an override was recorded, the hub client
      reports it while the entity is "on", and "0" otherwise. */
  lemma OverrideIsReported(m: map<string, string>, e: EntityRequest, state: HaEntity.EntityState)
    requires e.consumption != NoOverride
    ensures var m' := NextLoadMap(m, e, Answered(true));
      var r := HaEntity.GetEntityConsumption(e.entityId, m', HaEntity.Answered(true, Received(state)));
      && (state.consumption == HaEntity.On ==> r == Ok(HaEntity.EntityState(e.entityId, e.consumption)))
      && (state.consumption != HaEntity.On ==> r == Ok(HaEntity.EntityState(e.entityId, HaEntity.Zero)))
  {
  }
}
