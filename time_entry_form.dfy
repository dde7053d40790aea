/** The time-entry form (client/src/components/forms/TimeEntryForm.tsx):
    a project and two datetime fields; on submit the duration is computed in
    whole seconds and the entry is created or updated. Reading a datetime
    string (`new Date(s).getTime()`) is the parameter `parseDate`, `None`
    for an invalid date. */
module TimeEntryForm {
  import opened JsValues
  import opened Models
  import opened Http
  import TimeEntriesApi
  import TimeEntryHandler

  /** `formData`. */
  datatype EntryFormData = EntryFormData(projectId: Number, startTime: string, endTime: string)

  /** The `defaultValues` prop. */
  datatype EntryDefaults = EntryDefaults(projectId: Option<int>, startTime: Option<string>, endTime: Option<string>)

  /** The initial `formData`: each default, or 0 and empty strings when it
      is falsy. */
  function InitialFormData(d: EntryDefaults): (r: EntryFormData)
    ensures r.projectId == Int(if OptIntTruthy(d.projectId) then d.projectId.value else 0)
    ensures d.startTime.Some? ==> r.startTime == d.startTime.value
    ensures d.endTime.Some? ==> r.endTime == d.endTime.value
    ensures d.startTime.None? ==> r.startTime == ""
    ensures d.endTime.None? ==> r.endTime == ""
  {
    EntryFormData(
      Int(if OptIntTruthy(d.projectId) then d.projectId.value else 0),
      d.startTime.GetOr(""),
      d.endTime.GetOr(""))
  }

  lemma EmptyDefaults()
    ensures InitialFormData(EntryDefaults(None, None, None)) == EntryFormData(Int(0), "", "")
  {
  }

  /** `calculateDuration(start, end)`: `Math.floor` of the millisecond
      difference over 1000, NaN when either date is invalid. */
  function CalculateDuration(start: string, end: string, parseDate: string -> Option<Instant>): (d: Number)
    ensures d.Int? <==> parseDate(start).Some? && parseDate(end).Some?
    ensures d.Int? ==>
              var diff := parseDate(end).value - parseDate(start).value;
              d.n * 1000 <= diff < (d.n + 1) * 1000
  {
    var s := parseDate(start);
    var e := parseDate(end);
    if s.Some? && e.Some? then Int(ElapsedSeconds(s.value, e.value)) else NaN
  }

  /** An entry that ends before it starts gets a negative duration, and the
      division rounds towards minus infinity: 1.5 seconds backwards is -2. */
  lemma NegativeDuration(start: string, end: string, parseDate: string -> Option<Instant>)
    requires parseDate(start).Some? && parseDate(end).Some?
    ensures parseDate(end).value < parseDate(start).value ==> CalculateDuration(start, end, parseDate).n < 0
    ensures parseDate(start) == Some(1500) && parseDate(end) == Some(0) ==>
              CalculateDuration(start, end, parseDate) == Int(-2)
  {
  }

  /** The mutation's payload: the form data spread, plus the duration. */
  function Payload(data: EntryFormData, parseDate: string -> Option<Instant>): (p: TimeEntriesApi.TimeEntryInput)
    ensures p.projectId == data.projectId && p.startTime == data.startTime && p.endTime == data.endTime
    ensures p.duration == CalculateDuration(data.startTime, data.endTime, parseDate)
    ensures p.taskId.None?
  {
    TimeEntriesApi.TimeEntryInput(
      data.startTime, data.endTime, CalculateDuration(data.startTime, data.endTime, parseDate), data.projectId, None)
  }

  /** The mutation: update when editing with a truthy entry id, create
      otherwise. */
  function SubmitRequest(data: EntryFormData, isEdit: bool, entryId: Option<nat>, parseDate: string -> Option<Instant>)
    : (r: Request<TimeEntriesApi.TimeEntryBody>)
    ensures r.Put? <==> isEdit && entryId.Some? && entryId.value != 0
    ensures r.Put? ==> r == TimeEntriesApi.UpdateRequest(entryId.value, Payload(data, parseDate))
    ensures !r.Put? ==> r == TimeEntriesApi.CreateRequest(Payload(data, parseDate))
  {
    if isEdit && entryId.Some? && entryId.value != 0 then TimeEntriesApi.UpdateRequest(entryId.value, Payload(data, parseDate))
    else TimeEntriesApi.CreateRequest(Payload(data, parseDate))
  }

  /** The duration the form sends and the one the server stores, when both
      read the two strings as the same instants: the server's is the
      client's or one second more, and equal when the start is on a whole
      second. An invalid date is sent as null, which the server reads as 0
      before overwriting it. */
  lemma ClientAndServerDurations(data: EntryFormData, parseDate: string -> Option<Instant>,
                                 parseTime: string -> Option<Instant>, userId: nat)
    requires parseDate(data.startTime).Some? && parseDate(data.endTime).Some?
    requires parseTime(data.startTime) == parseDate(data.startTime)
    requires parseTime(data.endTime) == parseDate(data.endTime)
    ensures var start, end := parseDate(data.startTime).value, parseDate(data.endTime).value;
            var client := CalculateDuration(data.startTime, data.endTime, parseDate).n;
            && 0 <= TimeEntryHandler.ServerDuration(start, end) - client <= 1
            && (start % 1000 == 0 ==> TimeEntryHandler.ServerDuration(start, end) == client)
  {
    TimeEntryHandler.ServerDurationVsClient(parseDate(data.startTime).value, parseDate(data.endTime).value);
  }

  /** The form component's state and handlers. */
  class EntryFormState {
    var formData: EntryFormData
    const isEdit: bool
    const entryId: Option<nat>

    constructor (defaults: EntryDefaults, isEdit: bool, entryId: Option<nat>)
      ensures formData == InitialFormData(defaults)
      ensures this.isEdit == isEdit && this.entryId == entryId
    {
      formData := InitialFormData(defaults);
      this.isEdit := isEdit;
      this.entryId := entryId;
    }

    /** The project select: `parseInt` of the chosen option's value. */
    method ChangeProject(value: string)
      modifies this
      ensures formData == old(formData).(projectId := ParseInt(value))
    {
      formData := formData.(projectId := ParseInt(value));
    }

    method ChangeStartTime(value: string)
      modifies this
      ensures formData == old(formData).(startTime := value)
    {
      formData := formData.(startTime := value);
    }

    method ChangeEndTime(value: string)
      modifies this
      ensures formData == old(formData).(endTime := value)
    {
      formData := formData.(endTime := value);
    }

    /** `handleSubmit`: the request the mutation sends; the form state is
        left as it is. */
    method Submit(parseDate: string -> Option<Instant>) returns (request: Request<TimeEntriesApi.TimeEntryBody>)
      ensures request == SubmitRequest(formData, isEdit, entryId, parseDate)
    {
      var payload := Payload(formData, parseDate);
      if isEdit && entryId.Some? && entryId.value != 0 {
        request := TimeEntriesApi.UpdateRequest(entryId.value, payload);
      } else {
        request := TimeEntriesApi.CreateRequest(payload);
      }
    }
  }
}
