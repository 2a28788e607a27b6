/**
  * The pause protocol between the main thread and the one audio thread: two atomic flags and a
  * try-locked executor cell. Each step is one atomic access, or one section under the cell's lock.
  */
module PauseHandshake {
  import opened Wrappers

  /** Where the audio callback is; between callbacks it is `Idle`. */
  datatype Audio = Idle | SawPause | SawRun | StoredRun | Touching

  /** Where the main thread is: running, waiting for the flag, holding the engine parked, resuming. */
  datatype MainThread = Live | Waiting | Parked | Placed | Cleared

  datatype State = State(pauseRequested: bool, isPaused: bool, cell: Option<nat>, audio: Audio, main: MainThread)

  datatype Step =
    | Load | StorePaused | StoreRunning | TryLock | MissLock | Finish
    | Pause | Observe | Take | Place(executor: nat) | ClearPaused | ClearRequest

  const START := State(false, false, Some(0), Idle, Live)

  /** A callback holds the cell's lock while it touches the executor, so the main thread's sections wait. */
  predicate Enabled(s: State, step: Step) {
    match step
    case Load => s.audio.Idle?
    case StorePaused => s.audio.SawPause?
    case StoreRunning => s.audio.SawRun?
    case TryLock => s.audio.StoredRun?
    case MissLock => s.audio.StoredRun?
    case Finish => s.audio.Touching?
    case Pause => s.main.Live?
    case Observe => s.main.Waiting? && s.isPaused
    case Take => s.main.Parked? && !s.audio.Touching?
    case Place(_) => s.main.Parked? && !s.audio.Touching?
    case ClearPaused => s.main.Placed?
    case ClearRequest => s.main.Cleared?
  }

  function Next(s: State, step: Step): State
    requires Enabled(s, step)
  {
    match step
    case Load => s.(audio := if s.pauseRequested then SawPause else SawRun)
    case StorePaused => s.(isPaused := true, audio := Idle)
    case StoreRunning => s.(isPaused := false, audio := StoredRun)
    case TryLock => s.(audio := if s.cell.Some? then Touching else Idle)
    case MissLock => s.(audio := Idle)
    case Finish => s.(audio := Idle)
    case Pause => s.(pauseRequested := true, main := Waiting)
    case Observe => s.(main := Parked)
    case Take => s.(cell := None)
    case Place(executor) => s.(cell := Some(executor), main := Placed)
    case ClearPaused => s.(isPaused := false, main := Cleared)
    case ClearRequest => s.(pauseRequested := false, main := Live)
  }

  predicate CanRun(s: State, steps: seq<Step>)
    decreases |steps|, 2
  {
    steps == [] ||
    (CanRun(s, steps[..|steps| - 1]) && Enabled(After(s, steps[..|steps| - 1]), steps[|steps| - 1]))
  }

  function After(s: State, steps: seq<Step>): State
    requires CanRun(s, steps)
    decreases |steps|, 3
  {
    if steps == [] then s else Next(After(s, steps[..|steps| - 1]), steps[|steps| - 1])
  }

  /** A callback is at the executor while the main thread believes it has the engine to itself. */
  predicate Collision(s: State) { s.main.Parked? && s.audio.Touching? }

  /** No callback that decided to run is still on its way, unless the flag will yet tell. */
  predicate Calm(s: State) {
    !s.isPaused || s.audio.Idle? || s.audio.SawPause?
  }

  /** Every `pause` of the run was called with `is_paused` false. */
  predicate PausedFromFalse(s: State, steps: seq<Step>)
    requires CanRun(s, steps)
    decreases |steps|
  {
    steps == [] ||
    var before := steps[..|steps| - 1];
    PausedFromFalse(s, before) && (steps[|steps| - 1].Pause? ==> !After(s, before).isPaused)
  }

  predicate Guarded(s: State) {
    && (s.main.Waiting? || s.main.Parked? ==> s.pauseRequested && Calm(s))
    && (s.main.Parked? ==> s.audio.Idle? || s.audio.SawPause?)
  }

  lemma StepGuarded(s: State, step: Step)
    requires Guarded(s) && Enabled(s, step) && (step.Pause? ==> Calm(s))
    ensures Guarded(Next(s, step))
  {
  }

  /** From the observation to the placing of the new executor, no callback touches the executor. */
  lemma {:induction false} NoCollision(steps: seq<Step>)
    requires CanRun(START, steps) && PausedFromFalse(START, steps)
    ensures Guarded(After(START, steps)) && !Collision(After(START, steps))
    decreases |steps|
  {
    if steps == [] {
    } else {
      NoCollision(steps[..|steps| - 1]);
      StepGuarded(After(START, steps[..|steps| - 1]), steps[|steps| - 1]);
    }
  }

  // ── Exactly when one pause is safe ─────────────────────────────────────────

  /** The steps of one pause, up to the placing of the next executor. */
  predicate OnePause(steps: seq<Step>) {
    |steps| > 0 && steps[0].Pause? && forall i | 1 <= i < |steps| :: !steps[i].Pause? && !steps[i].Place?
  }

  lemma Extend(s: State, steps: seq<Step>, step: Step)
    requires CanRun(s, steps) && Enabled(After(s, steps), step)
    ensures CanRun(s, steps + [step]) && After(s, steps + [step]) == Next(After(s, steps), step)
  {
    assert (steps + [step])[..|steps|] == steps;
  }

  lemma {:induction false} CalmPauseSafe(s: State, steps: seq<Step>)
    requires s.main.Live? && Calm(s) && OnePause(steps) && CanRun(s, steps)
    ensures Guarded(After(s, steps)) && !Collision(After(s, steps))
    decreases |steps|
  {
    var before, last := steps[..|steps| - 1], steps[|steps| - 1];
    if |steps| == 1 {
      assert before == [];
      StepGuarded(s, last);
    } else {
      CalmPauseSafe(s, before);
      StepGuarded(After(s, before), last);
    }
  }

  lemma RestlessPauseCollides(s: State) returns (steps: seq<Step>)
    requires s.main.Live? && s.cell.Some? && !Calm(s)
    ensures OnePause(steps) && CanRun(s, steps) && Collision(After(s, steps))
  {
    Extend(s, [], Pause);
    steps := [] + [Pause];
    Extend(s, steps, Observe);
    steps := steps + [Observe];
    if s.audio.SawRun? {
      Extend(s, steps, StoreRunning);
      steps := steps + [StoreRunning];
    }
    if !s.audio.Touching? {
      Extend(s, steps, TryLock);
      steps := steps + [TryLock];
    }
  }

  /** A pause is safe in every interleaving if and only if it is called in a calm state. */
  lemma PauseSafeIffCalm(s: State)
    requires s.main.Live? && s.cell.Some?
    ensures (forall steps | OnePause(steps) && CanRun(s, steps) :: !Collision(After(s, steps))) <==> Calm(s)
  {
    if Calm(s) {
      forall steps | OnePause(steps) && CanRun(s, steps) ensures !Collision(After(s, steps)) { CalmPauseSafe(s,
        steps); }
    } else {
      var steps := RestlessPauseCollides(s);
    }
  }

  // ── The stale flag is reachable ────────────────────────────────────────────

  lemma ExtendAll(s: State, steps: seq<Step>, more: seq<Step>) returns (all: seq<Step>)
    requires CanRun(s, steps) && CanRun(After(s, steps), more)
    ensures CanRun(s, all) && After(s, all) == After(After(s, steps), more)
    decreases |more|
  {
    if more == [] {
      all := steps;
    } else {
      all := ExtendAll(s, steps, more[..|more| - 1]);
      Extend(s, all, more[|more| - 1]);
      all := all + [more[|more| - 1]];
    }
  }

  lemma Two(s: State, a: Step, b: Step)
    requires Enabled(s, a) && Enabled(Next(s, a), b)
    ensures CanRun(s, [a, b]) && After(s, [a, b]) == Next(Next(s, a), b)
  {
    Extend(s, [], a);
    assert [] + [a] == [a];
    Extend(s, [a], b);
    assert [a] + [b] == [a, b];
  }

  /**
    * A callback that read the first request stores `is_paused` after the resume; a second pause then
    * meets a true flag and a callback that has already decided to run.
    */
  lemma StaleFlagCollides() returns (steps: seq<Step>)
    ensures CanRun(START, steps) && Collision(After(START, steps))
    ensures !PausedFromFalse(START, steps)
  {
    var s := START;
    Two(s, Pause, Load);
    steps := [Pause, Load];
    Two(After(s, steps), StorePaused, Observe);
    steps := ExtendAll(s, steps, [StorePaused, Observe]);
    Two(After(s, steps), Load, Take);
    steps := ExtendAll(s, steps, [Load, Take]);
    Two(After(s, steps), Place(1), ClearPaused);
    steps := ExtendAll(s, steps, [Place(1), ClearPaused]);
    Two(After(s, steps), ClearRequest, StorePaused);
    steps := ExtendAll(s, steps, [ClearRequest, StorePaused]);
    Two(After(s, steps), Load, Pause);
    steps := ExtendAll(s, steps, [Load, Pause]);
    Two(After(s, steps), Observe, StoreRunning);
    steps := ExtendAll(s, steps, [Observe, StoreRunning]);
    Extend(s, steps, TryLock);
    steps := steps + [TryLock];
    if PausedFromFalse(START, steps) {
      NoCollision(steps);
    }
  }
}
