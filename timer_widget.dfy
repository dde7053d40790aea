/** The timer card (client/src/features/time-entries/Timer.tsx): a project
    and a task selector whose choices are kept locally, and one button that
    starts or stops the shared timer. The optional `projectId` and `taskId`
    props are whole numbers. */
module TimerWidget {
  import opened JsValues
  import opened Models
  import TimeEntriesApi
  import opened TimerContext

  /** The initial local selection: the prop as a string when it is given
      (`0` included, since "0" is truthy), else the context's selection when
      it is truthy, else none. */
  function InitialLocal(default: Option<nat>, selected: Option<string>): (local: Option<string>)
    ensures default.Some? ==> local == Some(NatToString(default.value))
    ensures default.None? && StringTruthy(selected) ==> local == selected
    ensures default.None? && !StringTruthy(selected) ==> local.None?
  {
    if default.Some? then Some(NatToString(default.value))
    else if StringTruthy(selected) then selected
    else None
  }

  /** The effect on the props: a truthy prop replaces the local choice. */
  function ApplyDefault(default: Option<nat>, local: Option<string>): (r: Option<string>)
    ensures OptIntTruthy(default) ==> r == Some(NatToString(default.value))
    ensures !OptIntTruthy(default) ==> r == local
  {
    if OptIntTruthy(default) then Some(NatToString(default.value)) else local
  }

  /** The button is enabled only when both local ids are truthy. */
  predicate ButtonEnabled(localProjectId: Option<string>, localTaskId: Option<string>) {
    StringTruthy(localProjectId) && StringTruthy(localTaskId)
  }

  /** The option values of the selectors are ids written in decimal, which
      are truthy, so a selected project and task enable the button. */
  lemma SelectedIdsEnable(project: nat, task: nat)
    ensures ButtonEnabled(Some(NatToString(project)), Some(NatToString(task)))
  {
  }

  /** The effect run after mount changes nothing: the initial choice
      already shows a truthy prop. */
  lemma MountEffectKeepsInitial(default: Option<nat>, selected: Option<string>)
    ensures ApplyDefault(default, InitialLocal(default, selected)) == InitialLocal(default, selected)
  {
  }

  /** Mounting the card without props while the shared timer runs a session
      started from a card shows that session's selection and the button
      enabled, so clicking it stops that session. */
  lemma RemountShowsRunningSelection(s: Session)
    requires s.isRunning && Coherent(s)
    ensures InitialLocal(None, s.selectedProjectId) == s.selectedProjectId
    ensures InitialLocal(None, s.selectedTaskId) == s.selectedTaskId
    ensures ButtonEnabled(InitialLocal(None, s.selectedProjectId), InitialLocal(None, s.selectedTaskId))
  {
  }

  /** A session started from an enabled button satisfies the timer's
      invariant, so the stop that follows writes an entry. */
  lemma EnabledStartIsStoppable(s: Session, localProjectId: Option<string>, localTaskId: Option<string>, now: Instant)
    requires ButtonEnabled(localProjectId, localTaskId)
    ensures var started := Start(s, localProjectId.value, localTaskId.value, now);
            Coherent(started) && CanStop(started)
  {
  }

  class Timer {
    const timer: TimerProvider
    const defaultProjectId: Option<nat>
    const defaultTaskId: Option<nat>
    var localProjectId: Option<string>
    var localTaskId: Option<string>

    constructor (timer: TimerProvider, defaultProjectId: Option<nat>, defaultTaskId: Option<nat>)
      ensures this.timer == timer
      ensures this.defaultProjectId == defaultProjectId && this.defaultTaskId == defaultTaskId
      ensures localProjectId == InitialLocal(defaultProjectId, timer.selectedProjectId)
      ensures localTaskId == InitialLocal(defaultTaskId, timer.selectedTaskId)
    {
      this.timer := timer;
      this.defaultProjectId := defaultProjectId;
      this.defaultTaskId := defaultTaskId;
      localProjectId := InitialLocal(defaultProjectId, timer.selectedProjectId);
      localTaskId := InitialLocal(defaultTaskId, timer.selectedTaskId);
    }

    /** The project selector is rendered only without a truthy project prop. */
    predicate ProjectSelectShown()
      reads this
    {
      !OptIntTruthy(defaultProjectId)
    }

    /** The task selector is rendered once a project is chosen and there is
        no truthy task prop. */
    predicate TaskSelectShown()
      reads this
    {
      StringTruthy(localProjectId) && !OptIntTruthy(defaultTaskId)
    }

    /** While the card shows a running session, its local choice is the
        session's selection. */
    predicate Synced()
      reads this, timer
    {
      timer.isRunning ==> timer.selectedProjectId == localProjectId && timer.selectedTaskId == localTaskId
    }

    /** The effect on `[defaultProjectId, defaultTaskId]`. */
    method ApplyDefaults()
      modifies this
      ensures localProjectId == ApplyDefault(defaultProjectId, old(localProjectId))
      ensures localTaskId == ApplyDefault(defaultTaskId, old(localTaskId))
    {
      if OptIntTruthy(defaultProjectId) {
        localProjectId := Some(NatToString(defaultProjectId.value));
      }
      if OptIntTruthy(defaultTaskId) {
        localTaskId := Some(NatToString(defaultTaskId.value));
      }
    }

    /** `handleProjectChange`: the new project, and the task cleared. The
        selector is disabled while the timer runs. */
    method HandleProjectChange(value: string)
      requires ProjectSelectShown() && !timer.isRunning
      modifies this
      ensures localProjectId == Some(value) && localTaskId.None?
      ensures !ButtonEnabled(localProjectId, localTaskId)
    {
      localProjectId := Some(value);
      localTaskId := None;
    }

    /** The task selector's `setLocalTaskId`; disabled while the timer runs. */
    method HandleTaskChange(value: string)
      requires TaskSelectShown() && !timer.isRunning
      modifies this
      ensures localTaskId == Some(value) && localProjectId == old(localProjectId)
    {
      localTaskId := Some(value);
    }

    /** `handleStart`: starts the shared timer with the local choice, and
        does nothing unless both ids are truthy. */
    method HandleStart(now: Instant)
      requires timer.Valid()
      modifies timer
      ensures timer.Valid()
      ensures ButtonEnabled(localProjectId, localTaskId) ==>
                timer.State() == Start(old(timer.State()), localProjectId.value, localTaskId.value, now)
      ensures !ButtonEnabled(localProjectId, localTaskId) ==> timer.State() == old(timer.State())
      ensures timer.pendingWrites == old(timer.pendingWrites)
    {
      if !StringTruthy(localProjectId) || !StringTruthy(localTaskId) {
        return;
      }
      timer.StartTimer(localProjectId.value, localTaskId.value, now);
    }

    /** A click on the enabled button: stop when the timer runs, start
        otherwise; so a start is never sent to a running timer. After a
        start the session is stoppable and shows the local choice. */
    method Click(now: Instant, toIso: Instant -> string) returns (write: Option<TimeEntriesApi.TimeEntryInput>)
      requires ButtonEnabled(localProjectId, localTaskId) && timer.Valid()
      modifies timer
      ensures timer.Valid()
      ensures old(timer.isRunning) ==>
                && timer.State() == BeginStop(old(timer.State()))
                && (CanStop(old(timer.State())) ==> write == Some(StopWrite(old(timer.State()), now, toIso)))
                && (!CanStop(old(timer.State())) ==> write.None?)
      ensures !old(timer.isRunning) ==>
                && timer.State() == Start(old(timer.State()), localProjectId.value, localTaskId.value, now)
                && write.None?
                && Coherent(timer.State())
                && Synced()
    {
      if timer.isRunning {
        write := timer.StopTimer(now, toIso);
      } else {
        HandleStart(now);
        write := None;
      }
    }
  }
}
