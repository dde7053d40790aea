/** The backend's time-entry handlers
    (backend/internal/handlers/time_entry_handler.go) over a table of stored
    entries. */
module TimeEntryHandler {
  import opened JsValues
  import opened Models
  import TimeEntriesApi

  /** The handlers' answers, with the HTTP status each one carries. */
  datatype Reply =
    | Created(entry: TimeEntry)
    | Saved(entry: TimeEntry)
    | Entries(entries: seq<TimeEntry>)
    | NoContent
    | BadRequest
    | InternalError(message: string)
  {
    function Status(): (code: nat)
    {
      match this
      case Created(_) => 201
      case Saved(_) => 200
      case Entries(_) => 200
      case NoContent => 204
      case BadRequest => 400
      case InternalError(_) => 500
    }
  }

  /** `c.ShouldBindJSON(&entry)` on the body the client sends. The time
      strings are read by `parseTime` (RFC 3339, abstracted); the body has no
      `ID` and no `user_id`, so those stay zero. `None` is a binding error. */
  function Bind(body: TimeEntriesApi.TimeEntryBody, parseTime: string -> Option<Instant>): (r: Option<TimeEntry>)
    ensures r.Some? <==>
              && parseTime(body.start_time).Some? && parseTime(body.end_time).Some?
              && BindInt64(body.duration).Some?
              && BindUint(body.project_id).Some? && BindUint(body.task_id).Some?
    ensures r.Some? ==>
              && r.value.id == 0 && r.value.userId == 0
              && r.value.startTime == parseTime(body.start_time).value
              && r.value.endTime == parseTime(body.end_time).value
              && r.value.duration == BindInt64(body.duration).value
              && r.value.projectId == BindUint(body.project_id).value
              && r.value.taskId == BindUint(body.task_id).value
  {
    var start := parseTime(body.start_time);
    var end := parseTime(body.end_time);
    var duration := BindInt64(body.duration);
    var project := BindUint(body.project_id);
    var task := BindUint(body.task_id);
    if start.Some? && end.Some? && duration.Some? && project.Some? && task.Some? then
      Some(TimeEntry(0, start.value, end.value, duration.value, project.value, task.value, 0))
    else
      None
  }

  /** The duration the server stores: the difference of the two instants
      in whole Unix seconds, whatever the client sent, and negative when the
      entry ends before it starts. */
  function ServerDuration(start: Instant, end: Instant): (d: int)
    ensures UnixSeconds(end) < UnixSeconds(start) ==> d < 0
    ensures d == 0 <==> UnixSeconds(end) == UnixSeconds(start)
  {
    UnixSeconds(end) - UnixSeconds(start)
  }

  /** The client computes `Math.floor((end - start) / 1000)`; the server's
      difference of whole seconds is that number or one more, and the two
      agree when the start falls on a whole second. */
  lemma ServerDurationVsClient(start: Instant, end: Instant)
    ensures 0 <= ServerDuration(start, end) - ElapsedSeconds(start, end) <= 1
    ensures start % 1000 == 0 ==> ServerDuration(start, end) == ElapsedSeconds(start, end)
  {
    var qs, rs := start / 1000, start % 1000;
    var qe, re := end / 1000, end % 1000;
    assert end - start == (qe - qs) * 1000 + (re - rs);
    if re >= rs {
      DivOfSplit(end - start, qe - qs, re - rs);
    } else {
      assert end - start == (qe - qs - 1) * 1000 + (re - rs + 1000);
      DivOfSplit(end - start, qe - qs - 1, re - rs + 1000);
    }
  }

  /** Floor division recovers the quotient of a decomposition. */
  lemma DivOfSplit(x: int, q: int, r: int)
    requires 0 <= r < 1000 && x == q * 1000 + r
    ensures x / 1000 == q
  {
  }

  /** What the create and update handlers do to the bound entry before it is
      saved: the owner becomes the authenticated user and the duration is
      recomputed. */
  function Stamp(entry: TimeEntry, userId: nat): (r: TimeEntry)
    ensures r.userId == userId
    ensures r.duration == ServerDuration(entry.startTime, entry.endTime)
    ensures r.(userId := entry.userId, duration := entry.duration) == entry
  {
    entry.(userId := userId, duration := ServerDuration(entry.startTime, entry.endTime))
  }

  /** Neither the duration nor the owner a client puts in the body makes it
      into the record that is saved. */
  lemma StampIgnoresClientFields(entry: TimeEntry, duration: int, owner: nat, userId: nat)
    ensures Stamp(entry.(duration := duration, userId := owner), userId) == Stamp(entry, userId)
  {
  }

  /** The entries of one user, in table order. */
  function OwnedBy(rows: seq<TimeEntry>, userId: nat): (r: seq<TimeEntry>)
    ensures |r| <= |rows|
    ensures forall e :: e in r <==> e in rows && e.userId == userId
  {
    if rows == [] then []
    else if rows[0].userId == userId then [rows[0]] + OwnedBy(rows[1..], userId)
    else OwnedBy(rows[1..], userId)
  }

  /** The table without the rows that have the given id and owner. */
  function Without(rows: seq<TimeEntry>, id: nat, userId: nat): (r: seq<TimeEntry>)
    ensures |r| <= |rows|
    ensures forall e :: e in r <==> e in rows && !(e.id == id && e.userId == userId)
  {
    if rows == [] then []
    else if rows[0].id == id && rows[0].userId == userId then Without(rows[1..], id, userId)
    else [rows[0]] + Without(rows[1..], id, userId)
  }

  /** A delete never touches another user's entries, nor the user's other
      entries. */
  lemma {:induction false} DeleteIsScoped(rows: seq<TimeEntry>, id: nat, userId: nat, other: nat)
    requires other != userId
    ensures OwnedBy(Without(rows, id, userId), other) == OwnedBy(rows, other)
  {
    if rows != [] {
      DeleteIsScoped(rows[1..], id, userId, other);
    }
  }

  /** The stored time entries; `nextId` is the next auto-increment key. */
  class TimeEntryTable {
    var rows: seq<TimeEntry>
    var nextId: nat

    /** Every stored key is positive and below `nextId`. */
    ghost predicate Valid()
      reads this
    {
      nextId > 0 && forall e :: e in rows ==> 0 < e.id < nextId
    }

    constructor ()
      ensures Valid() && rows == [] && nextId == 1
    {
      rows := [];
      nextId := 1;
    }

    /** Inserting a record under the next key. */
    method Insert(entry: TimeEntry) returns (stored: TimeEntry)
      requires Valid()
      modifies this
      ensures Valid()
      ensures stored == entry.(id := old(nextId))
      ensures rows == old(rows) + [stored] && nextId == old(nextId) + 1
    {
      stored := entry.(id := nextId);
      rows := rows + [stored];
      nextId := nextId + 1;
    }

    /** `CreateTimeEntry`: a body that does not bind is a 400 and nothing is
        stored; otherwise the stamped entry is inserted, unless the database
        fails (`dbOk` false), which is a 500. */
    method CreateTimeEntry(body: TimeEntriesApi.TimeEntryBody, parseTime: string -> Option<Instant>,
                           userId: nat, dbOk: bool) returns (reply: Reply)
      requires Valid()
      modifies this
      ensures Valid()
      ensures Bind(body, parseTime).None? ==> reply == BadRequest
      ensures Bind(body, parseTime).Some? && !dbOk ==> reply == InternalError("Error creating time entry")
      ensures Bind(body, parseTime).None? || !dbOk ==> rows == old(rows) && nextId == old(nextId)
      ensures Bind(body, parseTime).Some? && dbOk ==>
                var stored := Stamp(Bind(body, parseTime).value, userId).(id := old(nextId));
                reply == Created(stored) && rows == old(rows) + [stored] && nextId == old(nextId) + 1
    {
      var bound := Bind(body, parseTime);
      if bound.None? {
        return BadRequest;
      }
      var entry := bound.value;
      entry := entry.(userId := userId);
      entry := entry.(duration := UnixSeconds(entry.endTime) - UnixSeconds(entry.startTime));
      if !dbOk {
        return InternalError("Error creating time entry");
      }
      entry := Insert(entry);
      reply := Created(entry);
    }

    /** `UpdateTimeEntry`: the same binding and the same stamping; the path's
        id is never read, and as the body carries no `ID` the entry is saved
        with a zero key, which `Save` stores as a new row. */
    method UpdateTimeEntry(pathId: string, body: TimeEntriesApi.TimeEntryBody,
                           parseTime: string -> Option<Instant>, userId: nat, dbOk: bool)
      returns (reply: Reply)
      requires Valid()
      modifies this
      ensures Valid()
      ensures Bind(body, parseTime).None? ==> reply == BadRequest
      ensures Bind(body, parseTime).Some? && !dbOk ==> reply == InternalError("Error updating time entry")
      ensures Bind(body, parseTime).None? || !dbOk ==> rows == old(rows) && nextId == old(nextId)
      ensures Bind(body, parseTime).Some? && dbOk ==>
                var stored := Stamp(Bind(body, parseTime).value, userId).(id := old(nextId));
                reply == Saved(stored) && rows == old(rows) + [stored] && nextId == old(nextId) + 1
    {
      var bound := Bind(body, parseTime);
      if bound.None? {
        return BadRequest;
      }
      var entry := bound.value;
      entry := entry.(userId := userId);
      entry := entry.(duration := UnixSeconds(entry.endTime) - UnixSeconds(entry.startTime));
      if !dbOk {
        return InternalError("Error updating time entry");
      }
      entry := Insert(entry);
      reply := Saved(entry);
    }

    /** `GetTimeEntries`: the user's entries; a `project_id` query parameter
        is accepted and ignored. */
    method GetTimeEntries(projectIdParam: Option<int>, userId: nat, dbOk: bool) returns (reply: Reply)
      ensures dbOk ==> reply == Entries(OwnedBy(rows, userId))
      ensures !dbOk ==> reply == InternalError("Error fetching time entries")
    {
      if !dbOk {
        return InternalError("Error fetching time entries");
      }
      reply := Entries(OwnedBy(rows, userId));
    }

    /** `DeleteTimeEntry`: removes the rows with this id that the user owns
        and answers 204 whether or not any row matched. */
    method DeleteTimeEntry(id: nat, userId: nat, dbOk: bool) returns (reply: Reply)
      requires Valid()
      modifies this
      ensures Valid() && nextId == old(nextId)
      ensures dbOk ==> reply == NoContent && rows == Without(old(rows), id, userId)
      ensures !dbOk ==> reply == InternalError("Error deleting time entry") && rows == old(rows)
    {
      if !dbOk {
        return InternalError("Error deleting time entry");
      }
      rows := Without(rows, id, userId);
      reply := NoContent;
    }
  }

  /** What the server sends back for a stored entry, as the client reads it:
      Go marshals `task_id` as a number, never null; `formatTime` stands for
      the RFC 3339 formatting of `time.Time`. */
  function Marshal(e: TimeEntry, formatTime: Instant -> string): (r: TimeEntriesApi.TimeEntryResponse)
    ensures r.task_id == Some(e.taskId as int)
  {
    TimeEntriesApi.TimeEntryResponse(
      e.id, formatTime(e.startTime), formatTime(e.endTime), e.duration,
      e.projectId, Some(e.taskId), e.userId)
  }

  /** Input the server accepts for its ids: absent, NaN (sent as null), or a
      non-negative integer that fits a `uint`. */
  predicate AcceptableId(x: Number) {
    x.NaN? || 0 <= x.n <= UintMax
  }

  /** The full create round trip, from what a caller hands to
      `timeEntriesApi.create` through the server to the decoded response:
      the duration is the server's, the owner is the authenticated user, a
      truthy task id survives and any other comes back absent, and a NaN
      project id has become project 0. */
  lemma CreateRoundTrip(data: TimeEntriesApi.TimeEntryInput, parseTime: string -> Option<Instant>,
                        formatTime: Instant -> string, userId: nat, key: nat)
    requires parseTime(data.startTime).Some? && parseTime(data.endTime).Some?
    requires data.duration.NaN? || Int64Min <= data.duration.n <= Int64Max
    requires AcceptableId(data.projectId)
    requires data.taskId.Some? ==> AcceptableId(data.taskId.value)
    ensures var body := TimeEntriesApi.CreateRequest(data).body;
            var bound := Bind(body, parseTime);
            && bound.Some?
            && var back := TimeEntriesApi.TransformResponse(Marshal(Stamp(bound.value, userId).(id := key), formatTime));
               && back.id == key
               && back.userId == userId
               && back.duration == ServerDuration(parseTime(data.startTime).value, parseTime(data.endTime).value)
               && back.projectId == (if data.projectId.Int? then data.projectId.n else 0)
               && (back.taskId.Some? <==> data.taskId.Some? && NumberTruthy(data.taskId.value))
               && (back.taskId.Some? ==> data.taskId == Some(Int(back.taskId.value)))
  {
    var body := TimeEntriesApi.EncodeBody(data);
    var bound := Bind(body, parseTime);
    assert bound.Some?;
  }

  /** A negative task id reaches the server as a negative number, which does
      not bind to an unsigned field: the request is refused with a 400. */
  lemma NegativeTaskIsRefused(data: TimeEntriesApi.TimeEntryInput, parseTime: string -> Option<Instant>)
    requires data.taskId.Some? && data.taskId.value.Int? && data.taskId.value.n < 0
    ensures Bind(TimeEntriesApi.CreateRequest(data).body, parseTime).None?
  {
  }
}
