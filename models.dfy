/** The stored record shapes of the backend (backend/internal/models/models.go)
    and the few Go runtime conventions the handlers rely on. */
module Models {
  import opened JsValues

  /** A `time.Time`, as milliseconds since the Unix epoch. */
  type Instant = int

  /** `t.Unix()`: whole seconds since the epoch, rounded down, also for
      instants before 1970 (Dafny's division by a positive number floors). */
  function UnixSeconds(t: Instant): int
  {
    t / 1000
  }

  /** The range of a Go `int64`, into which `Duration` is decoded. */
  const Int64Min: int := -0x8000_0000_0000_0000
  const Int64Max: int := 0x7FFF_FFFF_FFFF_FFFF
  /** The largest Go `uint`; ids are unsigned. */
  const UintMax: int := 0xFFFF_FFFF_FFFF_FFFF

  /** `models.TimeEntry`; `Duration` is in seconds. */
  datatype TimeEntry = TimeEntry(
    id: nat,
    startTime: Instant,
    endTime: Instant,
    duration: int,
    projectId: nat,
    taskId: nat,
    userId: nat)

  /** `models.Project`, without its associations. */
  datatype Project = Project(
    id: nat,
    name: string,
    description: string,
    hourlyRate: real,
    userId: nat)

  /** Decoding one JSON number into a Go `uint` field: null leaves the zero
      value, a number outside the type's range is a binding error. */
  function BindUint(v: Option<int>): (r: Option<nat>)
    ensures v.None? ==> r == Some(0)
    ensures v.Some? ==> (r.Some? <==> 0 <= v.value <= UintMax)
    ensures v.Some? && r.Some? ==> r.value == v.value
  {
    match v
    case None => Some(0)
    case Some(n) => if 0 <= n <= UintMax then Some(n) else None
  }

  /** Decoding one JSON number into a Go `int64` field. */
  function BindInt64(v: Option<int>): (r: Option<int>)
    ensures v.None? ==> r == Some(0)
    ensures v.Some? ==> (r.Some? <==> Int64Min <= v.value <= Int64Max)
    ensures v.Some? && r.Some? ==> r.value == v.value
  {
    match v
    case None => Some(0)
    case Some(n) => if Int64Min <= n <= Int64Max then Some(n) else None
  }

  /** The zero `time.Time` (January 1 of year 1, UTC), which a missing or
      null time field decodes to. */
  const GoZeroTime: Instant := -62_135_596_800_000

  /** The sum of the entries' durations, in seconds, added in order. */
  function TotalDuration(es: seq<TimeEntry>): int
  {
    if es == [] then 0 else TotalDuration(es[..|es| - 1]) + es[|es| - 1].duration
  }

  /** The rows a query's condition keeps, in table order. */
  function Where(rows: seq<TimeEntry>, keep: TimeEntry -> bool): (r: seq<TimeEntry>)
    ensures |r| <= |rows|
    ensures forall e :: e in r <==> e in rows && keep(e)
  {
    if rows == [] then []
    else if keep(rows[0]) then [rows[0]] + Where(rows[1..], keep)
    else Where(rows[1..], keep)
  }
}
