/** The global timer (client/src/contexts/TimerContext.tsx): one running
    session shared by the whole client, advanced by a one-second interval
    and turned into a time entry when it is stopped.

    Time is an abstract millisecond clock: every operation that reads
    `new Date()` takes the reading as a parameter `now`, and ISO formatting
    (`toISOString`) is the parameter `toIso`. The write `stopTimer` awaits is
    split in two: `StopTimer` returns the request it sends, and
    `OnStopSettled` is the continuation that runs once the write has
    succeeded or failed. */
module TimerContext {
  import opened JsValues
  import opened Models
  import TimeEntriesApi
  import TimeEntryHandler

  /** The provider's five pieces of state. */
  datatype Session = Session(
    isRunning: bool,
    startTime: Option<Instant>,
    elapsed: int,
    selectedProjectId: Option<string>,
    selectedTaskId: Option<string>)

  /** The state on mount. */
  const Initial: Session := Session(false, None, 0, None, None)

  /** `startTimer(projectId, taskId)` at clock reading `now`. The elapsed
      count is not touched: it still shows the last value until the first
      tick. */
  function Start(s: Session, projectId: string, taskId: string, now: Instant): (r: Session)
    ensures r.isRunning && r.startTime == Some(now)
    ensures r.selectedProjectId == Some(projectId) && r.selectedTaskId == Some(taskId)
    ensures r.elapsed == s.elapsed
  {
    Session(true, Some(now), s.elapsed, Some(projectId), Some(taskId))
  }

  /** One interval callback at clock reading `now`. The interval exists only
      while the timer runs with a start time; it sets the elapsed count to
      the whole seconds since the start, rounded down. */
  function Tick(s: Session, now: Instant): (r: Session)
    ensures r.(elapsed := s.elapsed) == s
    ensures s.isRunning && s.startTime.Some? ==> r.elapsed == ElapsedSeconds(s.startTime.value, now)
    ensures !(s.isRunning && s.startTime.Some?) ==> r == s
  {
    if s.isRunning && s.startTime.Some? then s.(elapsed := ElapsedSeconds(s.startTime.value, now)) else s
  }

  /** `stopTimer`'s guard: both selections truthy and a start time set. */
  predicate CanStop(s: Session) {
    StringTruthy(s.selectedProjectId) && StringTruthy(s.selectedTaskId) && s.startTime.Some?
  }

  /** The entry `stopTimer` hands to `createMutation.mutateAsync`: the
      selections read with `parseInt`, the start and the stop time in ISO
      form, and the elapsed count as the duration. */
  function StopWrite(s: Session, now: Instant, toIso: Instant -> string): (w: TimeEntriesApi.TimeEntryInput)
    requires CanStop(s)
    ensures w.taskId.Some?
  {
    TimeEntriesApi.TimeEntryInput(
      toIso(s.startTime.value), toIso(now), Int(s.elapsed),
      ParseInt(s.selectedProjectId.value), Some(ParseInt(s.selectedTaskId.value)))
  }

  /** The synchronous part of `stopTimer`: without a truthy selection and a
      start time nothing happens; otherwise the timer stops running before
      the write is awaited. */
  function BeginStop(s: Session): (r: Session)
    ensures CanStop(s) ==> r == s.(isRunning := false)
    ensures !CanStop(s) ==> r == s
  {
    if CanStop(s) then s.(isRunning := false) else s
  }

  /** `resetTimer`: clears the start time, the elapsed count and both
      selections. It leaves `isRunning` as it is. */
  function Reset(s: Session): (r: Session)
    ensures r.isRunning == s.isRunning
    ensures r.startTime.None? && r.elapsed == 0
    ensures r.selectedProjectId.None? && r.selectedTaskId.None?
  {
    Session(s.isRunning, None, 0, None, None)
  }

  /** What runs after the awaited write: `resetTimer` when it succeeded;
      when it failed the rejection leaves `stopTimer` before the reset. */
  function Settle(s: Session, saved: bool): (r: Session)
    ensures saved ==> r == Reset(s)
    ensures !saved ==> r == s
  {
    if saved then Reset(s) else s
  }

  /** The beforeunload handler is re-created only when `isRunning` changes,
      so it sees the state of the render in which `isRunning` last changed.
      `prev` is what it saw before a step from `before` to `after`. */
  function Relisten(prev: Session, before: Session, after: Session): (seen: Session)
    ensures before.isRunning != after.isRunning ==> seen == after
    ensures before.isRunning == after.isRunning ==> seen == prev
  {
    if before.isRunning != after.isRunning then after else prev
  }

  /** The beforeunload handler, run with the state `seen` it closes over
      while the provider is in state `current`: when `seen` says the timer
      runs, it calls the `stopTimer` of that render, whose guard and request
      read `seen`; its setter still stops the live timer. */
  function Unload(seen: Session, current: Session, now: Instant, toIso: Instant -> string)
    : (r: (Session, Option<TimeEntriesApi.TimeEntryInput>))
    ensures seen.isRunning && CanStop(seen) ==> r == (current.(isRunning := false), Some(StopWrite(seen, now, toIso)))
    ensures !(seen.isRunning && CanStop(seen)) ==> r == (current, None)
  {
    if seen.isRunning && CanStop(seen) then (current.(isRunning := false), Some(StopWrite(seen, now, toIso)))
    else (current, None)
  }

  // ---------------------------------------------------------------------
  // Properties of the session

  /** The invariant the timer widget relies on: a running timer has a start time and a
      selection it can be stopped with. */
  predicate Coherent(s: Session) {
    s.isRunning ==> CanStop(s)
  }

  lemma InitialIsCoherent()
    ensures Coherent(Initial) && !CanStop(Initial)
  {
  }

  /** As long as every stop has settled before the next start, the steps
      keep the invariant: start (with the non-empty ids the timer widget
      passes), a tick, and a stop together with its outcome. */
  lemma CoherentPreserved(s: Session, projectId: string, taskId: string, now: Instant, saved: bool)
    requires Coherent(s)
    ensures projectId != "" && taskId != "" ==> Coherent(Start(s, projectId, taskId, now))
    ensures Coherent(Tick(s, now))
    ensures s.isRunning ==> Coherent(Settle(BeginStop(s), saved))
  {
  }

  /** Starting while a stop is still awaiting its write breaks the
      invariant: when the write then succeeds, `resetTimer` clears the new
      session's start time and selection but not `isRunning`, and the timer
      can neither tick nor be stopped any more. */
  lemma RestartDuringStopBreaksCoherence(s: Session, projectId: string, taskId: string, now: Instant, later: Instant)
    requires s.isRunning && CanStop(s)
    ensures var stuck := Settle(Start(BeginStop(s), projectId, taskId, now), true);
            && stuck.isRunning && stuck.startTime.None?
            && !Coherent(stuck)
            && Tick(stuck, later) == stuck
            && BeginStop(stuck) == stuck
  {
  }

  /** Start, ticks and a successful stop bring the provider back to its
      state on mount, whatever it held before. */
  lemma {:induction false} StopCycleReturnsToInitial(s: Session, projectId: string, taskId: string,
                                                      startedAt: Instant, tickedAt: Instant)
    requires projectId != "" && taskId != ""
    ensures var running := Tick(Start(s, projectId, taskId, startedAt), tickedAt);
            && CanStop(running)
            && Settle(BeginStop(running), true) == Initial
  {
    var started := Start(s, projectId, taskId, startedAt);
    var running := Tick(started, tickedAt);
    assert running.(elapsed := started.elapsed) == started;
    assert CanStop(running);
    assert BeginStop(running).isRunning == false;
  }

  /** The entry a stop writes after a start at `startedAt` and a last tick
      at `tickedAt`: it runs from the start to the stop, lasts the whole
      seconds counted at the last tick, and names the selected project and
      task by the numbers their option values spell. */
  lemma {:induction false} StopWritesSelectedEntry(s: Session, project: nat, task: nat, startedAt: Instant,
                                                   tickedAt: Instant, stoppedAt: Instant, toIso: Instant -> string)
    requires project != 0 && task != 0
    ensures var running := Tick(Start(s, NatToString(project), NatToString(task), startedAt), tickedAt);
            && CanStop(running)
            && StopWrite(running, stoppedAt, toIso)
                 == TimeEntriesApi.TimeEntryInput(toIso(startedAt), toIso(stoppedAt),
                                                  Int(ElapsedSeconds(startedAt, tickedAt)), Int(project), Some(Int(task)))
  {
    var p, t := NatToString(project), NatToString(task);
    assert p != "" && t != "";
    ParseIntOfNatToString(project);
    ParseIntOfNatToString(task);
    var running := Tick(Start(s, p, t, startedAt), tickedAt);
    assert running.elapsed == ElapsedSeconds(startedAt, tickedAt);
    assert running.selectedProjectId == Some(p) && running.selectedTaskId == Some(t);
  }

  /** A failed write loses nothing: the session is kept, stopped, and a
      second stop sends the same entry again (with the new stop time). */
  lemma FailedStopCanBeRetried(s: Session, now: Instant, toIso: Instant -> string)
    requires CanStop(s)
    ensures var kept := Settle(BeginStop(s), false);
            && kept == s.(isRunning := false)
            && CanStop(kept)
            && StopWrite(kept, now, toIso) == StopWrite(s, now, toIso)
  {
  }

  /** The elapsed count never goes down while the clock moves forward. */
  lemma TickIsMonotone(s: Session, earlier: Instant, later: Instant)
    requires earlier <= later
    ensures Tick(Tick(s, earlier), later).elapsed >= Tick(s, earlier).elapsed
  {
    if s.isRunning && s.startTime.Some? {
      ElapsedSecondsMonotone(s.startTime.value, earlier, later);
    }
  }

  /** Closing the page after a start sends the entry a stop would send
      except for the duration, which the unload handler reads from the
      render of the start. The server recomputes the duration from the two
      times, so both requests store the same entry. */
  lemma UnloadStoresSameEntry(s: Session, projectId: string, taskId: string, startedAt: Instant,
                              tickedAt: Instant, now: Instant, toIso: Instant -> string,
                              parseTime: string -> Option<Instant>, userId: nat)
    requires StringTruthy(Some(projectId)) && StringTruthy(Some(taskId))
    ensures var seen := Start(s, projectId, taskId, startedAt);
            var current := Tick(seen, tickedAt);
            var (after, write) := Unload(seen, current, now, toIso);
            && after == BeginStop(current)
            && write.Some?
            && write.value == StopWrite(current, now, toIso).(duration := Int(seen.elapsed))
            && var onUnload := TimeEntryHandler.Bind(TimeEntriesApi.CreateRequest(write.value).body, parseTime);
               var onStop := TimeEntryHandler.Bind(TimeEntriesApi.CreateRequest(StopWrite(current, now, toIso)).body, parseTime);
               (onUnload.Some? && onStop.Some? ==>
                  TimeEntryHandler.Stamp(onUnload.value, userId) == TimeEntryHandler.Stamp(onStop.value, userId))
  {
    var seen := Start(s, projectId, taskId, startedAt);
    var current := Tick(seen, tickedAt);
    var w := StopWrite(current, now, toIso);
    var u := w.(duration := Int(seen.elapsed));
    var onUnload := TimeEntryHandler.Bind(TimeEntriesApi.CreateRequest(u).body, parseTime);
    var onStop := TimeEntryHandler.Bind(TimeEntriesApi.CreateRequest(w).body, parseTime);
    if onUnload.Some? && onStop.Some? {
      assert onUnload.value == onStop.value.(duration := onUnload.value.duration);
      TimeEntryHandler.StampIgnoresClientFields(onStop.value, onUnload.value.duration, 0, userId);
    }
  }

  // ---------------------------------------------------------------------
  // The provider

  /** `TimerProvider`: the five state hooks, the closure the beforeunload
      listener holds, and the number of stop writes still awaited. */
  class TimerProvider {
    var isRunning: bool
    var startTime: Option<Instant>
    var elapsed: int
    var selectedProjectId: Option<string>
    var selectedTaskId: Option<string>
    var listener: Session
    var pendingWrites: nat

    function State(): Session
      reads this
    {
      Session(isRunning, startTime, elapsed, selectedProjectId, selectedTaskId)
    }

    /** The listener is re-registered whenever `isRunning` changes, so the
        state it closes over agrees with the live one on `isRunning`. */
    predicate Valid()
      reads this
    {
      listener.isRunning == isRunning
    }

    method SetState(s: Session)
      modifies this
      ensures State() == s
      ensures listener == old(listener) && pendingWrites == old(pendingWrites)
    {
      isRunning, startTime, elapsed := s.isRunning, s.startTime, s.elapsed;
      selectedProjectId, selectedTaskId := s.selectedProjectId, s.selectedTaskId;
    }

    constructor ()
      ensures Valid() && State() == Initial && listener == Initial && pendingWrites == 0
    {
      isRunning, startTime, elapsed := false, None, 0;
      selectedProjectId, selectedTaskId := None, None;
      listener := Initial;
      pendingWrites := 0;
    }

    /** The interval callback. */
    method OnInterval(now: Instant)
      requires Valid()
      modifies this
      ensures Valid()
      ensures State() == Tick(old(State()), now)
      ensures listener == old(listener) && pendingWrites == old(pendingWrites)
    {
      if isRunning && startTime.Some? {
        elapsed := ElapsedSeconds(startTime.value, now);
      }
    }

    method StartTimer(projectId: string, taskId: string, now: Instant)
      requires Valid()
      modifies this
      ensures Valid()
      ensures State() == Start(old(State()), projectId, taskId, now)
      ensures listener == Relisten(old(listener), old(State()), State())
      ensures pendingWrites == old(pendingWrites)
    {
      var before := State();
      SetState(Start(before, projectId, taskId, now));
      listener := Relisten(listener, before, State());
    }

    /** `stopTimer` up to the awaited write, which it returns; `None` when
        the guard returns early. */
    method StopTimer(now: Instant, toIso: Instant -> string) returns (write: Option<TimeEntriesApi.TimeEntryInput>)
      requires Valid()
      modifies this
      ensures Valid()
      ensures State() == BeginStop(old(State()))
      ensures CanStop(old(State())) ==> write == Some(StopWrite(old(State()), now, toIso))
      ensures !CanStop(old(State())) ==> write.None?
      ensures pendingWrites == old(pendingWrites) + (if write.Some? then 1 else 0)
      ensures listener == Relisten(old(listener), old(State()), State())
    {
      var before := State();
      if !CanStop(before) {
        return None;
      }
      isRunning := false;
      write := Some(StopWrite(before, now, toIso));
      pendingWrites := pendingWrites + 1;
      listener := Relisten(listener, before, State());
    }

    /** The rest of `stopTimer` once one awaited write has settled. */
    method OnStopSettled(saved: bool)
      requires Valid() && pendingWrites > 0
      modifies this
      ensures Valid()
      ensures State() == Settle(old(State()), saved)
      ensures pendingWrites == old(pendingWrites) - 1
      ensures listener == old(listener)
    {
      if saved {
        ResetTimer();
      }
      pendingWrites := pendingWrites - 1;
    }

    method ResetTimer()
      requires Valid()
      modifies this
      ensures Valid()
      ensures State() == Reset(old(State()))
      ensures listener == old(listener) && pendingWrites == old(pendingWrites)
    {
      startTime, elapsed := None, 0;
      selectedProjectId, selectedTaskId := None, None;
    }

    /** The page is being closed or reloaded. */
    method OnBeforeUnload(now: Instant, toIso: Instant -> string) returns (write: Option<TimeEntriesApi.TimeEntryInput>)
      requires Valid()
      modifies this
      ensures Valid()
      ensures write.Some? ==> old(isRunning) && !isRunning
      ensures (State(), write) == Unload(old(listener), old(State()), now, toIso)
      ensures pendingWrites == old(pendingWrites) + (if write.Some? then 1 else 0)
      ensures listener == Relisten(old(listener), old(State()), State())
    {
      var before := State();
      var seen := listener;
      if seen.isRunning && CanStop(seen) {
        isRunning := false;
        write := Some(StopWrite(seen, now, toIso));
        pendingWrites := pendingWrites + 1;
      } else {
        write := None;
      }
      listener := Relisten(listener, before, State());
    }
  }
}
