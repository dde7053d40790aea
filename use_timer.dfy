/** The stand-alone per-project timer hook (client/src/hooks/useTimer.ts):
    the same interval and write as the shared timer, for one project given
    when the hook is created and without a task. As for the shared timer,
    clock readings and ISO formatting are parameters, and `stop` is split at
    the awaited write. */
module UseTimer {
  import opened JsValues
  import opened Models
  import TimeEntriesApi
  import TimeEntryHandler

  /** The hook's three pieces of state. */
  datatype HookState = HookState(isRunning: bool, startTime: Option<Instant>, elapsed: int)

  const Initial: HookState := HookState(false, None, 0)

  /** `start`: nothing without a truthy project id; otherwise running from
      `now`, with the elapsed count left as it was. */
  function Start(s: HookState, projectId: Option<int>, now: Instant): (r: HookState)
    ensures !OptIntTruthy(projectId) ==> r == s
    ensures OptIntTruthy(projectId) ==> r == HookState(true, Some(now), s.elapsed)
  {
    if OptIntTruthy(projectId) then HookState(true, Some(now), s.elapsed) else s
  }

  /** One interval callback: whole seconds since the start, rounded down,
      while running with a start time. */
  function Tick(s: HookState, now: Instant): (r: HookState)
    ensures r.(elapsed := s.elapsed) == s
    ensures s.isRunning && s.startTime.Some? ==> r.elapsed == ElapsedSeconds(s.startTime.value, now)
    ensures !(s.isRunning && s.startTime.Some?) ==> r == s
  {
    if s.isRunning && s.startTime.Some? then s.(elapsed := ElapsedSeconds(s.startTime.value, now)) else s
  }

  /** `stop`'s guard: a truthy project id and a start time. It does not ask
      whether the timer runs. */
  predicate CanStop(s: HookState, projectId: Option<int>) {
    OptIntTruthy(projectId) && s.startTime.Some?
  }

  /** The entry `stop` writes: the project, the two times and the elapsed
      count; no task. */
  function StopWrite(s: HookState, projectId: Option<int>, now: Instant, toIso: Instant -> string)
    : (w: TimeEntriesApi.TimeEntryInput)
    requires CanStop(s, projectId)
    ensures w.taskId.None? && w.projectId == Int(projectId.value)
  {
    TimeEntriesApi.TimeEntryInput(toIso(s.startTime.value), toIso(now), Int(s.elapsed), Int(projectId.value), None)
  }

  /** `stop` up to the write: it stops running when the guard passes. */
  function BeginStop(s: HookState, projectId: Option<int>): (r: HookState)
    ensures CanStop(s, projectId) ==> r == s.(isRunning := false)
    ensures !CanStop(s, projectId) ==> r == s
  {
    if CanStop(s, projectId) then s.(isRunning := false) else s
  }

  /** After the write: start time and elapsed cleared when it succeeded;
      kept when it failed. */
  function Settle(s: HookState, saved: bool): (r: HookState)
    ensures saved ==> r == s.(startTime := None, elapsed := 0)
    ensures !saved ==> r == s
  {
    if saved then s.(startTime := None, elapsed := 0) else s
  }

  // ---------------------------------------------------------------------
  // Properties

  /** Without a truthy project the hook never starts, so it never writes. */
  lemma NoProjectNeverWrites(s: HookState, projectId: Option<int>, now: Instant)
    requires !OptIntTruthy(projectId)
    ensures Start(s, projectId, now) == s
    ensures !CanStop(s, projectId) && BeginStop(s, projectId) == s
  {
  }

  /** A start, ticks and a successful stop return the hook to its initial
      state, having written an entry from the start to the stop that lasts
      the seconds counted at the last tick. */
  lemma {:induction false} StopCycle(s: HookState, projectId: Option<int>, startedAt: Instant,
                                     tickedAt: Instant, stoppedAt: Instant, toIso: Instant -> string)
    requires OptIntTruthy(projectId)
    ensures var running := Tick(Start(s, projectId, startedAt), tickedAt);
            && CanStop(running, projectId)
            && StopWrite(running, projectId, stoppedAt, toIso)
                 == TimeEntriesApi.TimeEntryInput(toIso(startedAt), toIso(stoppedAt),
                                                  Int(ElapsedSeconds(startedAt, tickedAt)), Int(projectId.value), None)
            && Settle(BeginStop(running, projectId), true) == Initial
  {
    var started := Start(s, projectId, startedAt);
    assert started == HookState(true, Some(startedAt), s.elapsed);
    var running := Tick(started, tickedAt);
    assert running == HookState(true, Some(startedAt), ElapsedSeconds(startedAt, tickedAt));
  }

  /** After a failed write the guard still passes although the timer no
      longer runs: a second `stop` sends the entry again. */
  lemma FailedStopCanBeRetried(s: HookState, projectId: Option<int>)
    requires CanStop(s, projectId)
    ensures var kept := Settle(BeginStop(s, projectId), false);
            && !kept.isRunning && CanStop(kept, projectId)
            && kept == s.(isRunning := false)
  {
  }

  /** The hook's entry carries no task: the body sends `task_id: null`, the
      server stores task 0, and the client reads the stored entry back with
      no task. */
  lemma EntryHasNoTask(s: HookState, projectId: Option<int>, now: Instant, toIso: Instant -> string,
                       parseTime: string -> Option<Instant>, formatTime: Instant -> string, userId: nat, key: nat)
    requires CanStop(s, projectId)
    ensures var body := TimeEntriesApi.CreateRequest(StopWrite(s, projectId, now, toIso)).body;
            && body.task_id.None?
            && var bound := TimeEntryHandler.Bind(body, parseTime);
               (bound.Some? ==>
                  && bound.value.taskId == 0
                  && TimeEntriesApi.TransformResponse(
                       TimeEntryHandler.Marshal(TimeEntryHandler.Stamp(bound.value, userId).(id := key), formatTime)).taskId.None?)
  {
  }

  /** `useTimer(projectId)`: the hook's state and the writes it awaits. */
  class ProjectTimer {
    const projectId: Option<int>
    var isRunning: bool
    var startTime: Option<Instant>
    var elapsed: int
    var pendingWrites: nat

    function State(): HookState
      reads this
    {
      HookState(isRunning, startTime, elapsed)
    }

    constructor (projectId: Option<int>)
      ensures this.projectId == projectId && State() == Initial && pendingWrites == 0
    {
      this.projectId := projectId;
      isRunning, startTime, elapsed := false, None, 0;
      pendingWrites := 0;
    }

    method OnInterval(now: Instant)
      modifies this
      ensures State() == Tick(old(State()), now) && pendingWrites == old(pendingWrites)
    {
      if isRunning && startTime.Some? {
        elapsed := ElapsedSeconds(startTime.value, now);
      }
    }

    method StartTimer(now: Instant)
      modifies this
      ensures State() == Start(old(State()), projectId, now) && pendingWrites == old(pendingWrites)
    {
      if !OptIntTruthy(projectId) {
        return;
      }
      isRunning := true;
      startTime := Some(now);
    }

    /** `stop` up to the awaited write, which it returns. */
    method Stop(now: Instant, toIso: Instant -> string) returns (write: Option<TimeEntriesApi.TimeEntryInput>)
      modifies this
      ensures State() == BeginStop(old(State()), projectId)
      ensures CanStop(old(State()), projectId) ==> write == Some(StopWrite(old(State()), projectId, now, toIso))
      ensures !CanStop(old(State()), projectId) ==> write.None?
      ensures pendingWrites == old(pendingWrites) + (if write.Some? then 1 else 0)
    {
      if !CanStop(State(), projectId) {
        return None;
      }
      var before := State();
      isRunning := false;
      write := Some(StopWrite(before, projectId, now, toIso));
      pendingWrites := pendingWrites + 1;
    }

    /** The rest of `stop` once one awaited write has settled. */
    method OnStopSettled(saved: bool)
      requires pendingWrites > 0
      modifies this
      ensures State() == Settle(old(State()), saved)
      ensures pendingWrites == old(pendingWrites) - 1
    {
      if saved {
        startTime := None;
        elapsed := 0;
      }
      pendingWrites := pendingWrites - 1;
    }
  }
}
