/** Installing and rolling back builds (internal/release/activate.go): ordered saves of a small state
    file with stop and start steps between them, any of which may fail or never return. */
module Release {
  import opened Prelude

  datatype Build = Build(info: string, digest: string)

  /** The content of state.json. */
  datatype State = State(current: Option<Build>, previous: Option<Build>, pending: Option<Build>)

  const Nothing := State(None, None, None)

  /** How one call into storage or process control ends. The effect of `FailsAfter` took place
      although the caller sees an error; the installer dies at `Dies` and `DiesAfter`, before or
      after the effect. An exhausted script is a death. */
  datatype Outcome = Works | Fails | FailsAfter | Dies | DiesAfter

  datatype Answer = Yes | No | Dead

  /** `observed` remembers the digests some process was seen to run with. */
  datatype World = World(disk: State, running: Option<Build>, observed: set<string>, script: seq<Outcome>)

  datatype Failure =
    | LockFailed | Unreadable | InterruptedBefore | StageFailed | CandidateRejected | StatusUnknown
    | NotPreserved | AlreadySelected | VerifyFailed | SaveFailed | StopFailed | AnotherRuntime
    | NoPrevious | Cancelled | CancelUnsaved | RecoveryRequired | PreviousRestored
    | RestoreRefused | RestoreNotStarted | RestoreUnsaved

  datatype Result = Done | Error(failure: Failure) | Crashed

  function After(a: Answer, failure: Failure): Result
    requires a != Yes
  {
    if a == Dead then Crashed else Error(failure)
  }

  // ----- Primitive steps -----------------------------------------------------------------------------

  function Next(w: World): Outcome {
    if w.script == [] then Dies else w.script[0]
  }

  function Tail(w: World): World {
    if w.script == [] then w else w.(script := w.script[1..])
  }

  function AnswerTo(o: Outcome): Answer {
    match o
    case Works => Yes
    case Fails => No
    case FailsAfter => No
    case Dies => Dead
    case DiesAfter => Dead
  }

  predicate TookEffect(o: Outcome) {
    o == Works || o == FailsAfter || o == DiesAfter
  }

  /** Locking, reading, staging, checking, preserving, verifying: no effect on state or process. */
  function Ask(w: World): (World, Answer) {
    (Tail(w), AnswerTo(Next(w)))
  }

  function Save(w: World, st: State): (World, Answer) {
    (if TookEffect(Next(w)) then Tail(w).(disk := st) else Tail(w), AnswerTo(Next(w)))
  }

  function Stop(w: World): (World, Answer) {
    (if TookEffect(Next(w)) then Tail(w).(running := None) else Tail(w), AnswerTo(Next(w)))
  }

  /** A start that is reported to work has been seen running with the expected digest; a start that is
      reported to fail has killed what it launched. Nothing starts beside a running process. */
  function Start(w: World, b: Build): (World, Answer) {
    if AnswerTo(Next(w)) == No || (Next(w) == Works && w.running.Some?) then (Tail(w), No)
    else if Next(w) == Works then (Tail(w).(running := Some(b), observed := w.observed + {b.digest}), Yes)
    else (if Next(w) == DiesAfter && w.running.None? then Tail(w).(running := Some(b)) else Tail(w), Dead)
  }

  function Running(w: World): (World, Answer) {
    (if Next(w) == Works && w.running.Some? then Tail(w).(observed := w.observed + {w.running.value.digest}) else Tail(w),
     AnswerTo(Next(w)))
  }

  // ----- Activation ----------------------------------------------------------------------------------

  function Restore(w: World, original: State): (World, Result) {
    if original.current.None? then RestoreSave(w, original) else
    var (w1, verified) := Ask(w);
    if verified != Yes then (w1, After(verified, RestoreRefused)) else
    var (w2, started) := Start(w1, original.current.value);
    if started != Yes then (w2, After(started, RestoreNotStarted)) else
    RestoreSave(w2, original)
  }

  function RestoreSave(w: World, original: State): (World, Result) {
    var (w1, saved) := Save(w, original);
    (w1, if saved != Yes then After(saved, RestoreUnsaved) else Error(PreviousRestored))
  }

  function Applied(original: State, next: Build): State {
    State(Some(next),
          if original.current.Some? && original.current.value.digest == next.digest
          then original.previous else original.current,
          None)
  }

  function Activate(w: World, st: State, next: Build): (World, Result) {
    var original := st.(pending := None);
    var (w1, marked) := Save(w, st.(pending := Some(next)));
    if marked != Yes then (w1, After(marked, SaveFailed)) else
    var (w2, stopped) := Stop(w1);
    if stopped == Dead then (w2, Crashed)
    else if stopped == No then Cancel(w2, original)
    else Launch(w2, original, next)
  }

  function Cancel(w: World, original: State): (World, Result) {
    var (w1, saved) := Save(w, original);
    (w1, if saved != Yes then After(saved, CancelUnsaved) else Error(Cancelled))
  }

  function Launch(w: World, original: State, next: Build): (World, Result) {
    var (w1, started) := Start(w, next);
    if started == Dead then (w1, Crashed)
    else if started == No then Restore(w1, original)
    else Apply(w1, original, next)
  }

  function Apply(w: World, original: State, next: Build): (World, Result) {
    var (w1, saved) := Save(w, Applied(original, next));
    if saved == Yes then (w1, Done)
    else if saved == Dead then (w1, Crashed)
    else
      var (w2, stopped) := Stop(w1);
      if stopped != Yes then (w2, After(stopped, RecoveryRequired)) else Restore(w2, original)
  }

  // ----- Install and rollback ------------------------------------------------------------------------

  function Install(w: World, next: Build): (World, Result) {
    var (w1, locked) := Ask(w);
    if locked != Yes then (w1, After(locked, LockFailed)) else
    var (w2, read) := Ask(w1);
    if read != Yes then (w2, After(read, Unreadable)) else
    if w2.disk.pending.Some? then (w2, Error(InterruptedBefore)) else
    var (w3, staged) := Ask(w2);
    if staged != Yes then (w3, After(staged, StageFailed)) else
    var (w4, checked) := Ask(w3);
    if checked != Yes then (w4, After(checked, CandidateRejected)) else
    Replace(w4, w2.disk, next)
  }

  /** What runs now is preserved and becomes the recorded current build. */
  function Replace(w: World, st: State, next: Build): (World, Result) {
    var (w1, known) := Running(w);
    if known != Yes then (w1, After(known, StatusUnknown)) else
    if w1.running.None? then Select(w1, st, next) else
    var (w2, preserved) := Ask(w1);
    if preserved != Yes then (w2, After(preserved, NotPreserved)) else
    Select(w2, st.(current := w1.running), next)
  }

  function Select(w: World, st: State, next: Build): (World, Result) {
    if st.current.None? then Record(w, st, next)
    else if st.current.value.digest == next.digest then (w, Error(AlreadySelected))
    else
      var (w1, verified) := Ask(w);
      if verified != Yes then (w1, After(verified, VerifyFailed)) else Record(w1, st, next)
  }

  function Record(w: World, st: State, next: Build): (World, Result) {
    var (w1, saved) := Save(w, st);
    if saved != Yes then (w1, After(saved, SaveFailed)) else Activate(w1, st, next)
  }

  function Rollback(w: World): (World, Result) {
    var (w1, locked) := Ask(w);
    if locked != Yes then (w1, After(locked, LockFailed)) else
    var (w2, read) := Ask(w1);
    if read != Yes then (w2, After(read, Unreadable)) else
    var st := w2.disk;
    var target := if st.pending.Some? then st.current else st.previous;
    if st.pending.Some? && target.None? then Abandon(w2, st.pending.value)
    else if target.None? then (w2, Error(NoPrevious))
    else
      var (w3, verified) := Ask(w2);
      if verified != Yes then (w3, After(verified, VerifyFailed)) else Activate(w3, st, target.value)
  }

  /** An interrupted first install: there is nothing to go back to. */
  function Abandon(w: World, pending: Build): (World, Result) {
    var (w1, known) := Running(w);
    if known != Yes then (w1, After(known, StatusUnknown))
    else if w1.running.Some? && w1.running.value.digest != pending.digest then (w1, Error(AnotherRuntime))
    else
      var (w2, stopped) := Stop(w1);
      if stopped != Yes then (w2, After(stopped, StopFailed)) else
      var (w3, saved) := Save(w2, Nothing);
      (w3, if saved != Yes then After(saved, SaveFailed) else Done)
  }

  // ----- The same operations on an object ------------------------------------------------------------

  class Machine {
    var disk: State
    var running: Option<Build>
    var observed: set<string>
    var script: seq<Outcome>

    function Now(): World
      reads this
    {
      World(disk, running, observed, script)
    }

    method Pop() returns (o: Outcome)
      modifies this`script
      ensures o == Next(old(Now())) && Now() == Tail(old(Now()))
    {
      if script == [] {
        return Dies;
      }
      o := script[0];
      script := script[1..];
    }

    method Call() returns (a: Answer)
      modifies this`script
      ensures (Now(), a) == Ask(old(Now()))
    {
      var o := Pop();
      return AnswerTo(o);
    }

    method SaveState(st: State) returns (a: Answer)
      modifies this`script, this`disk
      ensures (Now(), a) == Save(old(Now()), st)
    {
      var o := Pop();
      if TookEffect(o) {
        disk := st;
      }
      return AnswerTo(o);
    }

    method StopRuntime() returns (a: Answer)
      modifies this`script, this`running
      ensures (Now(), a) == Stop(old(Now()))
    {
      var o := Pop();
      if TookEffect(o) {
        running := None;
      }
      return AnswerTo(o);
    }

    method StartRuntime(b: Build) returns (a: Answer)
      modifies this`script, this`running, this`observed
      ensures (Now(), a) == Start(old(Now()), b)
    {
      var o := Pop();
      if AnswerTo(o) == No || (o == Works && running.Some?) {
        return No;
      }
      if o == Works {
        running, observed := Some(b), observed + {b.digest};
        return Yes;
      }
      if o == DiesAfter && running.None? {
        running := Some(b);
      }
      return Dead;
    }

    method QueryRuntime() returns (a: Answer, live: Option<Build>)
      modifies this`script, this`observed
      ensures (Now(), a) == Running(old(Now())) && live == running
    {
      var o := Pop();
      if o == Works && running.Some? {
        observed := observed + {running.value.digest};
      }
      return AnswerTo(o), running;
    }

    method RestoreState(original: State) returns (r: Result)
      modifies this
      ensures (Now(), r) == Restore(old(Now()), original)
    {
      var a: Answer;
      if original.current.Some? {
        a := Call();
        if a != Yes {
          return After(a, RestoreRefused);
        }
        a := StartRuntime(original.current.value);
        if a != Yes {
          return After(a, RestoreNotStarted);
        }
      }
      a := SaveState(original);
      if a != Yes {
        return After(a, RestoreUnsaved);
      }
      return Error(PreviousRestored);
    }

    method ActivateBuild(before: State, next: Build) returns (r: Result)
      modifies this
      ensures (Now(), r) == Activate(old(Now()), before, next)
    {
      hide Restore, Save, Stop, Start;
      var original := before.(pending := None);
      var a := SaveState(before.(pending := Some(next)));
      if a != Yes {
        return After(a, SaveFailed);
      }
      a := StopRuntime();
      if a == Dead {
        return Crashed;
      }
      if a == No {
        a := SaveState(original);
        if a != Yes {
          return After(a, CancelUnsaved);
        }
        return Error(Cancelled);
      }
      r := LaunchBuild(original, next);
    }

    method LaunchBuild(original: State, next: Build) returns (r: Result)
      modifies this
      ensures (Now(), r) == Launch(old(Now()), original, next)
    {
      hide Restore, Save, Stop, Start;
      var a := StartRuntime(next);
      if a == Dead {
        return Crashed;
      }
      if a == No {
        r := RestoreState(original);
        return;
      }
      var applied := State(Some(next), original.current, None);
      if original.current.Some? && original.current.value.digest == next.digest {
        applied := applied.(previous := original.previous);
      }
      a := SaveState(applied);
      if a == No {
        a := StopRuntime();
        if a != Yes {
          return After(a, RecoveryRequired);
        }
        r := RestoreState(original);
        return;
      }
      return if a == Yes then Done else Crashed;
    }

    method InstallBuild(next: Build) returns (r: Result)
      modifies this
      ensures (Now(), r) == Install(old(Now()), next)
    {
      hide Replace;
      var a := Call();
      if a != Yes {
        return After(a, LockFailed);
      }
      a := Call();
      if a != Yes {
        return After(a, Unreadable);
      }
      var st := disk;
      if st.pending.Some? {
        return Error(InterruptedBefore);
      }
      a := Call();
      if a != Yes {
        return After(a, StageFailed);
      }
      a := Call();
      if a != Yes {
        return After(a, CandidateRejected);
      }
      r := ReplaceRunning(st, next);
    }

    method ReplaceRunning(before: State, next: Build) returns (r: Result)
      modifies this
      ensures (Now(), r) == Replace(old(Now()), before, next)
    {
      hide Ask, Running, Save, Activate;
      var st := before;
      var a, live := QueryRuntime();
      if a != Yes {
        return After(a, StatusUnknown);
      }
      if live.Some? {
        a := Call();
        if a != Yes {
          return After(a, NotPreserved);
        }
        st := st.(current := live);
      }
      if st.current.Some? && st.current.value.digest == next.digest {
        return Error(AlreadySelected);
      }
      if st.current.Some? {
        a := Call();
        if a != Yes {
          return After(a, VerifyFailed);
        }
      }
      a := SaveState(st);
      if a != Yes {
        return After(a, SaveFailed);
      }
      r := ActivateBuild(st, next);
    }

    method RollBack() returns (r: Result)
      modifies this
      ensures (Now(), r) == Rollback(old(Now()))
    {
      hide Ask, Activate, Abandon;
      var a := Call();
      if a != Yes {
        return After(a, LockFailed);
      }
      a := Call();
      if a != Yes {
        return After(a, Unreadable);
      }
      var st := disk;
      var target := st.previous;
      if st.pending.Some? {
        target := st.current;
      }
      if st.pending.Some? && target.None? {
        r := AbandonInstall(st.pending.value);
        return;
      }
      if target.None? {
        return Error(NoPrevious);
      }
      a := Call();
      if a != Yes {
        return After(a, VerifyFailed);
      }
      r := ActivateBuild(st, target.value);
    }

    method AbandonInstall(pending: Build) returns (r: Result)
      modifies this
      ensures (Now(), r) == Abandon(old(Now()), pending)
    {
      var a, live := QueryRuntime();
      if a != Yes {
        return After(a, StatusUnknown);
      }
      if live.Some? && live.value.digest != pending.digest {
        return Error(AnotherRuntime);
      }
      a := StopRuntime();
      if a != Yes {
        return After(a, StopFailed);
      }
      a := SaveState(Nothing);
      return if a == Yes then Done else After(a, SaveFailed);
    }
  }
}
