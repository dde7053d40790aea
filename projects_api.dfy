/** The client's project API (client/src/api/projects.ts). */
module ProjectsApi {
  import opened JsValues
  import opened Http

  /** A project as the client uses it. */
  datatype Project = Project(
    id: int,
    name: string,
    description: string,
    hourlyRate: real,
    userId: int)

  /** A project as the server sends it. */
  datatype ProjectResponse = ProjectResponse(
    ID: int,
    name: string,
    description: string,
    hourly_rate: real,
    user_id: int)

  /** What callers hand to `create` and `update`, a `Partial<Project>` that
      may also carry an id and an owner. */
  datatype ProjectInput = ProjectInput(
    id: Option<int>,
    name: string,
    description: string,
    hourlyRate: real,
    userId: Option<int>)

  /** The JSON body of a create or update request: three fields only. */
  datatype ProjectBody = ProjectBody(
    name: string,
    description: string,
    hourly_rate: real)

  /** `transformResponse`. */
  function TransformResponse(d: ProjectResponse): (r: Project)
    ensures r.id == d.ID && r.userId == d.user_id && r.hourlyRate == d.hourly_rate
    ensures r.name == d.name && r.description == d.description
  {
    Project(d.ID, d.name, d.description, d.hourly_rate, d.user_id)
  }

  /** The body of `create` and `update`. */
  function EncodeBody(data: ProjectInput): (b: ProjectBody)
    ensures b.name == data.name && b.description == data.description
    ensures b.hourly_rate == data.hourlyRate
  {
    ProjectBody(data.name, data.description, data.hourlyRate)
  }

  /** The id and owner a caller passes are never sent. */
  lemma EncodeIgnoresIdAndOwner(data: ProjectInput, id: Option<int>, userId: Option<int>)
    ensures EncodeBody(data.(id := id, userId := userId)) == EncodeBody(data)
  {
  }

  /** `getAll`: no parameters; its decoding is `response.data.map(transformResponse)`. */
  function GetAllRequest(): (r: Request<ProjectBody>)
    ensures r.Get? && r.path == "/projects" && r.projectIdParam.None?
  {
    Get("/projects", None)
  }

  function DecodeAll(rs: seq<ProjectResponse>): (r: seq<Project>)
    ensures |r| == |rs|
    ensures forall i :: 0 <= i < |rs| ==> r[i] == TransformResponse(rs[i])
  {
    seq(|rs|, i requires 0 <= i < |rs| => TransformResponse(rs[i]))
  }

  /** `getById(id)`. */
  function GetByIdRequest(id: nat): (r: Request<ProjectBody>)
    ensures r.Get? && r.path == "/projects/" + NatToString(id) && r.projectIdParam.None?
  {
    Get("/projects/" + NatToString(id), None)
  }

  /** `create(data)`. */
  function CreateRequest(data: ProjectInput): (r: Request<ProjectBody>)
    ensures r.Post? && r.path == "/projects" && r.body == EncodeBody(data)
  {
    Post("/projects", EncodeBody(data))
  }

  /** `update(id, data)` sends the very body `create` would send. */
  function UpdateRequest(id: nat, data: ProjectInput): (r: Request<ProjectBody>)
    ensures r.Put? && r.path == "/projects/" + NatToString(id)
    ensures r.body == CreateRequest(data).body
  {
    Put("/projects/" + NatToString(id), EncodeBody(data))
  }

  /** `delete(id)`. */
  function DeleteRequest(id: nat): (r: Request<ProjectBody>)
    ensures r.Delete? && r.path == "/projects/" + NatToString(id)
  {
    Delete("/projects/" + NatToString(id))
  }

  /** The answer of the backend's create handler: the body bound to the
      stored record, with the new key and the caller as owner. */
  function CreatedProject(body: ProjectBody, key: nat, userId: nat): (r: ProjectResponse)
    ensures r.ID == key && r.user_id == userId
  {
    ProjectResponse(key, body.name, body.description, body.hourly_rate, userId)
  }

  /** Encoding, creating and decoding keeps the name, the description and the
      hourly rate; the id and the owner are the server's. */
  lemma CreateRoundTrip(data: ProjectInput, key: nat, userId: nat)
    ensures var p := TransformResponse(CreatedProject(EncodeBody(data), key, userId));
            && p.name == data.name && p.description == data.description
            && p.hourlyRate == data.hourlyRate
            && p.id == key && p.userId == userId
  {
  }
}
