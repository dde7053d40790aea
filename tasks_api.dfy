/** The client's task API (client/src/api/tasks.ts): wire shapes, the
    response decoder with its array check, and the request encoder. */
module TasksApi {
  import opened JsValues
  import opened Http
  import Models

  /** A task as the client uses it. */
  datatype Task = Task(
    id: int,
    projectId: int,
    title: string,
    description: string,
    status: string,
    tags: seq<string>,
    userId: int)

  /** A task as the server sends it. `tags` is `None` when the value is not
      an array, as when Go marshals a nil slice as null. */
  datatype TaskResponse = TaskResponse(
    ID: int,
    title: string,
    description: string,
    status: string,
    tags: Option<seq<string>>,
    project_id: int,
    user_id: int)

  /** What the task form hands to `create` and `update`; `tags` is `None`
      when the value is not an array. */
  datatype TaskInput = TaskInput(
    projectId: Number,
    title: string,
    description: string,
    status: string,
    tags: Option<seq<string>>)

  /** The JSON body of a create or update request. */
  datatype TaskBody = TaskBody(
    title: string,
    description: string,
    status: string,
    tags: seq<string>,
    project_id: Option<int>)

  /** `transformResponse`: renames the fields; tags that are not an array
      become the empty list. */
  function TransformResponse(d: TaskResponse): (r: Task)
    ensures r.id == d.ID && r.projectId == d.project_id && r.userId == d.user_id
    ensures r.title == d.title && r.description == d.description && r.status == d.status
    ensures d.tags.Some? ==> r.tags == d.tags.value
    ensures d.tags.None? ==> r.tags == []
  {
    Task(d.ID, d.project_id, d.title, d.description, d.status, d.tags.GetOr([]), d.user_id)
  }

  /** The body of `create` and `update`: tags forced to an array, and
      `project_id` taken from `projectId`. */
  function EncodeBody(data: TaskInput): (b: TaskBody)
    ensures b.title == data.title && b.description == data.description && b.status == data.status
    ensures data.tags.Some? ==> b.tags == data.tags.value
    ensures data.tags.None? ==> b.tags == []
    ensures b.project_id == ToJson(data.projectId)
  {
    TaskBody(data.title, data.description, data.status, data.tags.GetOr([]), ToJson(data.projectId))
  }

  /** `getAll(projectId)`: `project_id` is sent only when truthy. */
  function GetAllRequest(projectId: Option<int>): (r: Request<TaskBody>)
    ensures r.Get? && r.path == "/tasks"
    ensures r.projectIdParam.Some? <==> projectId.Some? && projectId.value != 0
    ensures r.projectIdParam.Some? ==> r.projectIdParam == projectId
  {
    Get("/tasks", if OptIntTruthy(projectId) then projectId else None)
  }

  /** `getAll`'s `response.data.map(transformResponse)`. */
  function DecodeAll(rs: seq<TaskResponse>): (r: seq<Task>)
    ensures |r| == |rs|
    ensures forall i :: 0 <= i < |rs| ==> r[i] == TransformResponse(rs[i])
  {
    seq(|rs|, i requires 0 <= i < |rs| => TransformResponse(rs[i]))
  }

  /** `getById(id)`. */
  function GetByIdRequest(id: nat): (r: Request<TaskBody>)
    ensures r.Get? && r.path == "/tasks/" + NatToString(id) && r.projectIdParam.None?
  {
    Get("/tasks/" + NatToString(id), None)
  }

  /** `create(data)`. */
  function CreateRequest(data: TaskInput): (r: Request<TaskBody>)
    ensures r.Post? && r.path == "/tasks" && r.body == EncodeBody(data)
  {
    Post("/tasks", EncodeBody(data))
  }

  /** `update(id, data)` sends the very body `create` would send. */
  function UpdateRequest(id: nat, data: TaskInput): (r: Request<TaskBody>)
    ensures r.Put? && r.path == "/tasks/" + NatToString(id)
    ensures r.body == CreateRequest(data).body
  {
    Put("/tasks/" + NatToString(id), EncodeBody(data))
  }

  /** `delete(id)`. */
  function DeleteRequest(id: nat): (r: Request<TaskBody>)
    ensures r.Delete? && r.path == "/tasks/" + NatToString(id)
  {
    Delete("/tasks/" + NatToString(id))
  }

  /** The answer of the backend's create handler to a task body: the body
      bound to the stored record (a null `project_id` binds to 0, a negative
      one is refused), returned with the new key and the caller as owner. */
  function CreatedTask(body: TaskBody, key: nat, userId: nat): (r: Option<TaskResponse>)
    ensures r.Some? <==> Models.BindUint(body.project_id).Some?
  {
    var project := Models.BindUint(body.project_id);
    if project.None? then None
    else Some(TaskResponse(key, body.title, body.description, body.status, Some(body.tags), project.value, userId))
  }

  /** Encoding a task, creating it and decoding the answer gives back the
      title, description and status, the tags when they were an array (the
      empty list otherwise) and the project id. */
  lemma CreateRoundTrip(data: TaskInput, key: nat, userId: nat)
    requires data.projectId.Int? && 0 <= data.projectId.n <= Models.UintMax
    ensures CreatedTask(EncodeBody(data), key, userId).Some?
    ensures var t := TransformResponse(CreatedTask(EncodeBody(data), key, userId).value);
            && t.title == data.title && t.description == data.description && t.status == data.status
            && t.tags == data.tags.GetOr([])
            && t.projectId == data.projectId.n
            && t.id == key && t.userId == userId
  {
  }
}
