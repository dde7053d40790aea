/** The client's time-entry API (client/src/api/time-entries.ts): the
    snake_case wire shapes, the response decoder and the request encoder. */
module TimeEntriesApi {
  import opened JsValues
  import opened Http

  /** A time entry as the client uses it (`TimeEntry` in the client's types). */
  datatype TimeEntry = TimeEntry(
    id: int,
    startTime: string,
    endTime: string,
    duration: int,
    projectId: int,
    taskId: Option<int>,
    userId: int)

  /** A time entry as the server sends it; `task_id` may be null. */
  datatype TimeEntryResponse = TimeEntryResponse(
    ID: int,
    start_time: string,
    end_time: string,
    duration: int,
    project_id: int,
    task_id: Option<int>,
    user_id: int)

  /** What callers hand to `create` and `update`: times as ISO strings, the
      numbers as JavaScript numbers (NaN included), and an optional task. */
  datatype TimeEntryInput = TimeEntryInput(
    startTime: string,
    endTime: string,
    duration: Number,
    projectId: Number,
    taskId: Option<Number>)

  /** The JSON body of a create or update request; `None` is JSON null. */
  datatype TimeEntryBody = TimeEntryBody(
    start_time: string,
    end_time: string,
    duration: Option<int>,
    project_id: Option<int>,
    task_id: Option<int>)

  /** `transformResponse`: renames the fields and turns a null or zero
      `task_id` into an absent task. */
  function TransformResponse(d: TimeEntryResponse): (r: TimeEntry)
    ensures r.id == d.ID && r.userId == d.user_id && r.projectId == d.project_id
    ensures r.startTime == d.start_time && r.endTime == d.end_time
    ensures r.duration == d.duration
    ensures r.taskId.Some? <==> d.task_id.Some? && d.task_id.value != 0
    ensures r.taskId.Some? ==> r.taskId == d.task_id
  {
    TimeEntry(
      d.ID, d.start_time, d.end_time, d.duration, d.project_id,
      if d.task_id.Some? && d.task_id.value != 0 then d.task_id else None,
      d.user_id)
  }

  /** The request body of `create` and `update`: the five fields renamed;
      `task_id` is the task id when it is truthy and null otherwise. */
  function EncodeBody(data: TimeEntryInput): (b: TimeEntryBody)
    ensures b.start_time == data.startTime && b.end_time == data.endTime
    ensures b.duration == ToJson(data.duration)
    ensures b.project_id == ToJson(data.projectId)
    ensures b.task_id.Some? <==> data.taskId.Some? && NumberTruthy(data.taskId.value)
    ensures b.task_id.Some? ==> data.taskId == Some(Int(b.task_id.value))
  {
    TimeEntryBody(
      data.startTime, data.endTime, ToJson(data.duration),
      ToJson(data.projectId), OrNull(data.taskId))
  }

  /** `getAll(projectId)`: the `project_id` parameter is sent only when the
      project id is truthy. */
  function GetAllRequest(projectId: Option<int>): (r: Request<TimeEntryBody>)
    ensures r.Get? && r.path == "/time-entries"
    ensures r.projectIdParam.Some? <==> projectId.Some? && projectId.value != 0
    ensures r.projectIdParam.Some? ==> r.projectIdParam == projectId
  {
    Get("/time-entries", if OptIntTruthy(projectId) then projectId else None)
  }

  /** `getAll`'s `response.data.map(transformResponse)`. */
  function DecodeAll(rs: seq<TimeEntryResponse>): (r: seq<TimeEntry>)
    ensures |r| == |rs|
    ensures forall i :: 0 <= i < |rs| ==> r[i] == TransformResponse(rs[i])
  {
    seq(|rs|, i requires 0 <= i < |rs| => TransformResponse(rs[i]))
  }

  /** `create(data)`. */
  function CreateRequest(data: TimeEntryInput): (r: Request<TimeEntryBody>)
    ensures r.Post? && r.path == "/time-entries" && r.body == EncodeBody(data)
  {
    Post("/time-entries", EncodeBody(data))
  }

  /** `update(id, data)` sends the very body `create` would send. */
  function UpdateRequest(id: nat, data: TimeEntryInput): (r: Request<TimeEntryBody>)
    ensures r.Put? && r.path == "/time-entries/" + NatToString(id)
    ensures r.body == CreateRequest(data).body
  {
    Put("/time-entries/" + NatToString(id), EncodeBody(data))
  }

  /** `delete(id)`. */
  function DeleteRequest(id: nat): (r: Request<TimeEntryBody>)
    ensures r.Delete? && r.path == "/time-entries/" + NatToString(id)
  {
    Delete("/time-entries/" + NatToString(id))
  }
}
