/** hems-core/src/resources/devices/timeshifters.rs: the endpoints under
    `/timeshifters/{entity_name}`. Every handler except add and remove first
    turns the path's name into a device kind and answers 400 when it is
    neither "DishWasher" nor "WashingMachine". */
module TimeShiftersResource {
  import opened Wrappers
  import opened Json
  import opened Text
  import opened Demkit
  import opened Http
  import Env
  import opened TimeShiftersApi

  /** `DeviceStatus`. `progress` is `None` where the `f64` division yields
      an infinity or NaN, which serde_json writes as `null`. */
  datatype DeviceStatus = DeviceStatus(
    houseId: nat,
    entityName: string,
    isActive: bool,
    activeJob: Option<Job>,
    progress: Option<real>,
    activeJobIdx: int,
    scheduledJobs: seq<Job>,
    consumption: Measurement,
    profile: seq<Env.InternalComplex>)

  const PercentScale: real := 100.0

  /** `job_progress / (profile_length as f64) * 100.0`. */
  function Progress(jobProgress: real, profileLength: nat): (p: Option<real>)
    ensures p.None? <==> profileLength == 0
    ensures p.Some? ==> p.value * (profileLength as real) == jobProgress * PercentScale
  {
    if profileLength == 0 then None
    else Some(jobProgress / (profileLength as real) * PercentScale)
  }

  /** A job that has run between none and all of its profile's samples is
      reported between 0 and 100 percent. */
  lemma ProgressIsPercentage(jobProgress: real, profileLength: nat)
    requires profileLength > 0
    requires 0.0 <= jobProgress <= profileLength as real
    ensures Progress(jobProgress, profileLength).Some?
    ensures 0.0 <= Progress(jobProgress, profileLength).value <= PercentScale
    ensures jobProgress == profileLength as real ==> Progress(jobProgress, profileLength).value == PercentScale
  {
    var n := profileLength as real;
    var p := jobProgress / n;
    assert p * n == jobProgress;
    assert p <= 1.0 by {
      assert p * n <= 1.0 * n;
    }
  }

  /** Job progress 45 of a 180-sample profile is 25 percent. */
  lemma ProgressExample()
    ensures Progress(45.0, 180) == Some(25.0)
    ensures Progress(0.0, 0) == None
  {
  }

  /** The status assembled from the properties `get_properties` returned. */
  ghost function ToStatus(houseId: nat, info: TimeShifterInfo): (s: DeviceStatus)
    ensures s.houseId == houseId && s.entityName == info.name
    ensures s.isActive == info.available
    ensures s.activeJob == (if info.available then info.currentJob else None)
    ensures s.activeJobIdx == info.currentJobIdx
    ensures s.scheduledJobs == info.jobs
    ensures s.progress == Progress(info.jobProgress, |info.deviceProfile|)
    ensures s.consumption.unit == "W" && s.consumption.value >= 0.0
    ensures s.consumption.value == Norm(info.electricityConsumption)
    ensures s.consumption.value == 0.0 <==> info.electricityConsumption == ComplexValue(0.0, 0.0)
    ensures |s.profile| == |info.deviceProfile|
    ensures forall i :: 0 <= i < |s.profile| ==> Env.ToComplex(s.profile[i]) == info.deviceProfile[i]
  {
    DeviceStatus(
      houseId,
      info.name,
      info.available,
      if info.available then info.currentJob else None,
      Progress(info.jobProgress, |info.deviceProfile|),
      info.currentJobIdx,
      info.jobs,
      Measurement(Norm(info.electricityConsumption), "W"),
      seq(|info.deviceProfile|, i requires 0 <= i < |info.deviceProfile| => Env.FromComplex(info.deviceProfile[i])))
  }

  /** An unavailable device never reports an active job. */
  lemma InactiveHasNoJob(houseId: nat, info: TimeShifterInfo)
    requires !info.available
    ensures !ToStatus(houseId, info).isActive && ToStatus(houseId, info).activeJob.None?
  {
  }

  /** `get_by_id`: the calls made and the response. */
  ghost function GetById(houseId: nat, entityName: string, reply: Reply<TimeShifterInfoWire>): (r: (seq<SimCall>, Response<DeviceStatus>))
    requires reply.Received? ==> !GetPropertiesPanics(reply.body)
    ensures TryFromName(entityName).Err? ==> r == ([], BadRequest400(InvalidTimeShifterName))
    ensures TryFromName(entityName).Ok? ==> r.0 == [GetPropertiesCall(houseId, TryFromName(entityName).value)]
    ensures r.1.InternalError500? <==> TryFromName(entityName).Ok? && GetProperties(reply).Err?
    ensures r.1.Ok200? ==> r.1.body == ToStatus(houseId, GetProperties(reply).value)
  {
    match TryFromName(entityName)
    case Err(e) => ([], BadRequest400(e))
    case Ok(kind) =>
      match GetProperties(reply)
      case Err(e) => ([GetPropertiesCall(houseId, kind)], InternalError500(e))
      case Ok(info) => ([GetPropertiesCall(houseId, kind)], Ok200(ToStatus(houseId, info)))
  }

  const AddedSuffix: string := " added successfully"
  const RemovedSuffix: string := " removed successfully"

  /** `add_by_id`: the body's parameters go to `add_timeshifter` unchecked;
      the path's name only appears in the success text. */
  function AddById(houseId: nat, entityName: string, params: Env.EntityParams, reply: Env.ComposerReply): (r: (Json, Response<string>))
    requires params.TimeShifter?
    ensures r.0 == Env.EntityJson(Env.NewEntity(Env.Scoped(houseId, params)))
    ensures !r.1.BadRequest400?
    ensures r.1.Ok200? <==> Env.ComposerOutcome("set timeshifter", reply).Pass?
    ensures r.1.Ok200? ==> r.1.body == entityName + AddedSuffix
    ensures r.1.InternalError500? ==> Fail(r.1.error) == Env.ComposerOutcome("set timeshifter", reply)
  {
    var (sent, outcome) := Env.AddEntity(houseId, Env.AddNamed(params), reply);
    match outcome
    case Fail(e) => (sent, InternalError500(e))
    case Pass => (sent, Ok200(entityName + AddedSuffix))
  }

  /** `remove_by_id`: any name is accepted and renamed for the house. */
  function RemoveById(houseId: nat, entityName: string, reply: Env.ComposerReply): (r: (string, Response<string>))
    ensures r.0 == Env.RemovePath(houseId, entityName)
    ensures !r.1.BadRequest400?
    ensures r.1.Ok200? <==> Env.RemoveOutcome(reply).Pass?
    ensures r.1.Ok200? ==> r.1.body == entityName + RemovedSuffix
    ensures r.1.InternalError500? ==> Fail(r.1.error) == Env.RemoveOutcome(reply)
  {
    match Env.RemoveOutcome(reply)
    case Fail(e) => (Env.RemovePath(houseId, entityName), InternalError500(e))
    case Pass => (Env.RemovePath(houseId, entityName), Ok200(entityName + RemovedSuffix))
  }

  /** A timeshifter added under the name `n` is the one a removal of `n`
      from the same house deletes. */
  lemma AddThenRemove(houseId: nat, params: Env.EntityParams, r1: Env.ComposerReply, r2: Env.ComposerReply)
    requires params.TimeShifter?
    ensures AddById(houseId, params.name, params, r1).0.entries[1].1.entries[0].1.s ==
            HouseScoped(params.name, houseId)
    ensures RemoveById(houseId, params.name, r2).0 == Env.EntitiesPath + HouseScoped(params.name, houseId)
  {
  }

  /** `schedule_job`: the calls made and the job returned. */
  function ScheduleById(houseId: nat, entityName: string, job: ScheduleJob, reply: Reply<(bool, string)>, now: nat): (r: (seq<SimCall>, Response<Job>))
    ensures TryFromName(entityName).Err? ==> r == ([], BadRequest400(InvalidTimeShifterName))
    ensures TryFromName(entityName).Ok? ==>
      && r.0 == ScheduleCalls(houseId, TryFromName(entityName).value, job, reply)
      && (r.1.Ok200? <==> ScheduleJobResult(job, reply, now).Ok?)
      && (r.1.Ok200? ==> r.1.body == ScheduleJobResult(job, reply, now).value)
      && (r.1.InternalError500? ==> Err(r.1.error) == ScheduleJobResult(job, reply, now))
  {
    match TryFromName(entityName)
    case Err(e) => ([], BadRequest400(e))
    case Ok(kind) =>
      var calls := ScheduleCalls(houseId, kind, job, reply);
      match ScheduleJobResult(job, reply, now)
      case Err(e) => (calls, InternalError500(e))
      case Ok(scheduled) => (calls, Ok200(scheduled))
  }

  /** `cancel_job`: the confirmation quotes the job id and the name. */
  function CancelById(houseId: nat, entityName: string, jobId: nat, reply: Reply<(bool, string)>): (r: (seq<SimCall>, Response<string>))
    ensures TryFromName(entityName).Err? ==> r == ([], BadRequest400(InvalidTimeShifterName))
    ensures TryFromName(entityName).Ok? ==>
      && r.0 == [CancelCall(houseId, TryFromName(entityName).value, jobId)]
      && (r.1.Ok200? <==> CancelJobResult(reply).Pass?)
      && (r.1.Ok200? ==> r.1.body == "Job " + DecimalString(jobId) + " cancelled for " + entityName)
      && (r.1.InternalError500? ==> Fail(r.1.error) == CancelJobResult(reply))
  {
    match TryFromName(entityName)
    case Err(e) => ([], BadRequest400(e))
    case Ok(kind) =>
      var calls := [CancelCall(houseId, kind, jobId)];
      match CancelJobResult(reply)
      case Fail(e) => (calls, InternalError500(e))
      case Pass => (calls, Ok200("Job " + DecimalString(jobId) + " cancelled for " + entityName))
  }

  /** `force_shutdown`. */
  function ShutdownById(houseId: nat, entityName: string, reply: Reply<bool>): (r: (seq<SimCall>, Response<string>))
    ensures TryFromName(entityName).Err? ==> r == ([], BadRequest400(InvalidTimeShifterName))
    ensures TryFromName(entityName).Ok? ==>
      && r.0 == [ShutdownCall(houseId, TryFromName(entityName).value)]
      && (r.1.Ok200? <==> ForceShutdownResult(reply).Pass?)
      && (r.1.Ok200? ==> r.1.body == "Shutdown successful for " + entityName)
      && (r.1.InternalError500? ==> Fail(r.1.error) == ForceShutdownResult(reply))
  {
    match TryFromName(entityName)
    case Err(e) => ([], BadRequest400(e))
    case Ok(kind) =>
      var calls := [ShutdownCall(houseId, kind)];
      match ForceShutdownResult(reply)
      case Fail(e) => (calls, InternalError500(e))
      case Pass => (calls, Ok200("Shutdown successful for " + entityName))
  }

  /** A name that is not a device kind is refused by every kind-checked
      handler before anything is sent; a valid name makes each of them
      address that device of that house. */
  lemma NameGuardsEveryHandler(houseId: nat, entityName: string, job: ScheduleJob, sreply: Reply<(bool, string)>,
                               now: nat, jobId: nat, breply: Reply<bool>)
    ensures TryFromName(entityName).Err? <==> ScheduleById(houseId, entityName, job, sreply, now).1.BadRequest400?
    ensures TryFromName(entityName).Err? <==> CancelById(houseId, entityName, jobId, sreply).1.BadRequest400?
    ensures TryFromName(entityName).Err? <==> ShutdownById(houseId, entityName, breply).1.BadRequest400?
    ensures TryFromName(entityName).Ok? ==>
      && ScheduleById(houseId, entityName, job, sreply, now).0[0].entity == HouseScoped(entityName, houseId)
      && CancelById(houseId, entityName, jobId, sreply).0[0].entity == HouseScoped(entityName, houseId)
      && ShutdownById(houseId, entityName, breply).0[0].entity == HouseScoped(entityName, houseId)
  {
  }
}
