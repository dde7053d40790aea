/** The invoice handler (backend/internal/handlers/invoice_handler.go): the
    caller's entries on one of their projects between two dates, their
    total duration and the amount at the project's hourly rate. Hours and
    amounts are stated in exact real arithmetic; the handler computes them
    in float64. */
module Invoice {
  import opened JsValues
  import opened Models
  import Analytics

  /** The JSON body: `project_id` and the two dates, each possibly absent
      or null (`None`). */
  datatype InvoiceBody = InvoiceBody(project_id: Option<int>, start_date: Option<string>, end_date: Option<string>)

  /** `InvoiceRequest` once bound. */
  datatype InvoiceRequest = InvoiceRequest(projectId: nat, startDate: Instant, endDate: Instant)

  /** Decoding a `time.Time` field: absent or null leaves the zero time,
      a string must parse (RFC 3339, abstracted as `parseTime`). */
  function BindTime(v: Option<string>, parseTime: string -> Option<Instant>): (r: Option<Instant>)
    ensures v.None? ==> r == Some(GoZeroTime)
    ensures v.Some? ==> r == parseTime(v.value)
  {
    if v.None? then Some(GoZeroTime) else parseTime(v.value)
  }

  /** `c.ShouldBindJSON(&req)`; `body` is `None` when it is not a JSON
      object. */
  function BindRequest(body: Option<InvoiceBody>, parseTime: string -> Option<Instant>): (r: Option<InvoiceRequest>)
    ensures r.Some? <==>
              && body.Some? && BindUint(body.value.project_id).Some?
              && BindTime(body.value.start_date, parseTime).Some?
              && BindTime(body.value.end_date, parseTime).Some?
    ensures r.Some? ==>
              && r.value.projectId == BindUint(body.value.project_id).value
              && r.value.startDate == BindTime(body.value.start_date, parseTime).value
              && r.value.endDate == BindTime(body.value.end_date, parseTime).value
  {
    if body.None? then None
    else
      var project := BindUint(body.value.project_id);
      var start := BindTime(body.value.start_date, parseTime);
      var end := BindTime(body.value.end_date, parseTime);
      if project.Some? && start.Some? && end.Some? then
        Some(InvoiceRequest(project.value, start.value, end.value))
      else None
  }

  /** `Where("id = ? AND user_id = ?").First(&project)`: the first project
      with that id owned by the caller. */
  function FindProject(projects: seq<Project>, id: nat, userId: nat): (r: Option<Project>)
    ensures r.Some? ==> r.value in projects && r.value.id == id && r.value.userId == userId
    ensures r.None? ==> forall p :: p in projects ==> !(p.id == id && p.userId == userId)
  {
    if projects == [] then None
    else if projects[0].id == id && projects[0].userId == userId then Some(projects[0])
    else FindProject(projects[1..], id, userId)
  }

  /** The entries query: the project, the caller, and a start time `BETWEEN`
      the two dates, both included. */
  function InvoiceWindow(req: InvoiceRequest, userId: nat): TimeEntry -> bool
  {
    (e: TimeEntry) => e.projectId == req.projectId && e.userId == userId && req.startDate <= e.startTime <= req.endDate
  }

  /** The `totalSeconds` loop. */
  method SumSeconds(entries: seq<TimeEntry>) returns (total: int)
    ensures total == TotalDuration(entries)
  {
    total := 0;
    var i := 0;
    while i < |entries|
      invariant 0 <= i <= |entries|
      invariant total == TotalDuration(entries[..i])
    {
      total := total + entries[i].duration;
      assert entries[..i + 1][..i] == entries[..i];
      i := i + 1;
    }
    assert entries[..|entries|] == entries;
  }

  /** What the handler answers. */
  datatype InvoiceReply =
    | Invoice(projectName: string, startDate: Instant, endDate: Instant, totalSeconds: int,
              hourlyRate: real, entries: seq<TimeEntry>)
    | BadRequest
    | NotFound(message: string)
    | InternalError(message: string)
  {
    function Status(): (code: nat)
      ensures code == 200 <==> this.Invoice?
    {
      match this
      case Invoice(_, _, _, _, _, _) => 200
      case BadRequest => 400
      case NotFound(_) => 404
      case InternalError(_) => 500
    }

    /** `total_hours`. */
    function TotalHours(): real
      requires this.Invoice?
    {
      totalSeconds as real / 3600.0
    }

    /** `total_amount`. */
    function TotalAmount(): real
      requires this.Invoice?
    {
      TotalHours() * hourlyRate
    }
  }

  /** `GenerateInvoice`. `queryOk` is whether the entries query succeeds. */
  method GenerateInvoice(body: Option<InvoiceBody>, parseTime: string -> Option<Instant>,
                         projects: seq<Project>, rows: seq<TimeEntry>, userId: nat, queryOk: bool)
    returns (reply: InvoiceReply)
    ensures BindRequest(body, parseTime).None? ==> reply == BadRequest
    ensures BindRequest(body, parseTime).Some? ==>
              var req := BindRequest(body, parseTime).value;
              var project := FindProject(projects, req.projectId, userId);
              && (project.None? ==> reply == NotFound("Project not found"))
              && (project.Some? && !queryOk ==> reply == InternalError("Error fetching time entries"))
              && (project.Some? && queryOk ==>
                    var selected := Where(rows, InvoiceWindow(req, userId));
                    reply == Invoice(project.value.name, req.startDate, req.endDate,
                                     TotalDuration(selected), project.value.hourlyRate, selected))
    ensures reply.Invoice? ==>
              reply.TotalAmount() == TotalDuration(reply.entries) as real * reply.hourlyRate / 3600.0
  {
    var bound := BindRequest(body, parseTime);
    if bound.None? {
      return BadRequest;
    }
    var req := bound.value;
    var project := FindProject(projects, req.projectId, userId);
    if project.None? {
      return NotFound("Project not found");
    }
    if !queryOk {
      return InternalError("Error fetching time entries");
    }
    var entries := Where(rows, InvoiceWindow(req, userId));
    var totalSeconds := SumSeconds(entries);
    reply := Invoice(project.value.name, req.startDate, req.endDate, totalSeconds, project.value.hourlyRate, entries);
  }

  // ---------------------------------------------------------------------
  // Properties

  /** The selected entries are exactly the caller's entries on the project
      that start within the dates, both ends included. */
  lemma SelectedEntries(rows: seq<TimeEntry>, req: InvoiceRequest, userId: nat, e: TimeEntry)
    ensures e in Where(rows, InvoiceWindow(req, userId)) <==>
              && e in rows && e.projectId == req.projectId && e.userId == userId
              && req.startDate <= e.startTime && e.startTime <= req.endDate
  {
  }

  /** The invoice's seconds are the sum of what the analytics handlers
      would put in the buckets of the same entries, whatever the key. */
  lemma InvoiceAgreesWithAnalytics(selected: seq<TimeEntry>, key: Instant -> string)
    ensures TotalDuration(selected) == Analytics.SumValues(Analytics.SumByKey(selected, key))
  {
    Analytics.Conservation(selected, key);
  }

  /** A missing or null `project_id` binds to 0, and no stored project has
      id 0, so such a request is answered 404 whatever the entries. */
  lemma MissingProjectIsNotFound(body: InvoiceBody, parseTime: string -> Option<Instant>,
                                 projects: seq<Project>, userId: nat)
    requires body.project_id.None?
    requires forall p :: p in projects ==> p.id != 0
    ensures var bound := BindRequest(Some(body), parseTime);
            bound.Some? ==> FindProject(projects, bound.value.projectId, userId).None?
  {
  }

  /** A missing or null `end_date` binds to the zero time, so no entry that
      starts later is selected and the invoice totals zero. */
  lemma MissingEndDateSelectsNothing(body: InvoiceBody, parseTime: string -> Option<Instant>,
                                     rows: seq<TimeEntry>, userId: nat)
    requires body.end_date.None?
    requires forall e :: e in rows ==> e.startTime > GoZeroTime
    ensures var bound := BindRequest(Some(body), parseTime);
            bound.Some? ==>
              && Where(rows, InvoiceWindow(bound.value, userId)) == []
              && TotalDuration(Where(rows, InvoiceWindow(bound.value, userId))) == 0
  {
  }
}
