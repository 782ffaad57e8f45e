/** What installation keeps over every history of installs, rollbacks and runtimes that come and go,
    whatever step fails or never returns. */
module ReleaseHistory {
  import opened Prelude
  import opened Release

  datatype Event =
    | Installs(next: Build, script: seq<Outcome>)
    | RollsBack(script: seq<Outcome>)
    | RuntimeExits
    | CurrentStarts
    | OtherStarts(build: Build)

  const Fresh := World(Nothing, None, {}, [])

  function Step(w: World, e: Event): World {
    match e
    case Installs(next, script) => Install(w.(script := script), next).0
    case RollsBack(script) => Rollback(w.(script := script)).0
    case RuntimeExits => w.(running := None)
    case CurrentStarts => if w.running.Some? then w else w.(running := w.disk.current)
    case OtherStarts(build) => if w.running.Some? then w else w.(running := Some(build))
  }

  function Run(w: World, events: seq<Event>): World
    decreases |events|
  {
    if events == [] then w else Run(Step(w, events[0]), events[1..])
  }

  // ----- The recorded builds were seen running -------------------------------------------------------

  predicate Seen(st: State, observed: set<string>) {
    && (st.current.Some? ==> st.current.value.digest in observed)
    && (st.previous.Some? ==> st.current.Some? && st.previous.value.digest in observed)
  }

  predicate Inv(w: World) {
    Seen(w.disk, w.observed)
  }

  lemma StepsKeep(w: World, st: State, b: Build)
    requires Inv(w) && Seen(st, w.observed)
    ensures Inv(Ask(w).0) && Ask(w).0.observed == w.observed
    ensures Inv(Save(w, st).0) && Save(w, st).0.observed == w.observed
    ensures Inv(Stop(w).0) && Stop(w).0.observed == w.observed
    ensures Inv(Start(w, b).0) && w.observed <= Start(w, b).0.observed
    ensures Inv(Running(w).0) && w.observed <= Running(w).0.observed
  {
  }

  lemma RestoreKeeps(w: World, original: State)
    requires Inv(w) && Seen(original, w.observed)
    ensures Inv(Restore(w, original).0)
  {
    hide Inv, Ask, Save, Start;
    if original.current.Some? {
      StepsKeep(w, original, original.current.value);
      StepsKeep(Ask(w).0, original, original.current.value);
      var started := Start(Ask(w).0, original.current.value).0;
      StepsKeep(started, original, original.current.value);
    } else {
      StepsKeep(w, original, Build("", ""));
    }
  }

  lemma ApplyKeeps(w: World, original: State, next: Build)
    requires Inv(w) && Seen(original, w.observed) && next.digest in w.observed
    ensures Inv(Apply(w, original, next).0)
  {
    hide Inv, Save, Stop, Restore;
    StepsKeep(w, Applied(original, next), next);
    var w1 := Save(w, Applied(original, next)).0;
    StepsKeep(w1, original, next);
    RestoreKeeps(Stop(w1).0, original);
  }

  lemma StartSees(w: World, b: Build)
    requires Start(w, b).1 == Yes
    ensures b.digest in Start(w, b).0.observed
  {
  }

  lemma LaunchKeeps(w: World, original: State, next: Build)
    requires Inv(w) && Seen(original, w.observed)
    ensures Inv(Launch(w, original, next).0)
  {
    hide Inv, Start, Restore, Apply;
    StepsKeep(w, original, next);
    var (w1, started) := Start(w, next);
    if started == Yes {
      StartSees(w, next);
      ApplyKeeps(w1, original, next);
    }
    RestoreKeeps(w1, original);
  }

  lemma ActivateKeeps(w: World, st: State, next: Build)
    requires Inv(w) && Seen(st, w.observed)
    ensures Inv(Activate(w, st, next).0)
  {
    hide Inv, Save, Stop, Launch;
    var original := st.(pending := None);
    StepsKeep(w, st.(pending := Some(next)), next);
    var w1 := Save(w, st.(pending := Some(next))).0;
    StepsKeep(w1, original, next);
    var w2 := Stop(w1).0;
    StepsKeep(w2, original, next);
    LaunchKeeps(w2, original, next);
  }

  lemma SelectKeeps(w: World, st: State, next: Build)
    requires Inv(w) && Seen(st, w.observed)
    ensures Inv(Select(w, st, next).0)
  {
    hide Inv, Ask, Save, Activate;
    StepsKeep(w, st, next);
    var w1 := Ask(w).0;
    StepsKeep(w1, st, next);
    ActivateKeeps(Save(w, st).0, st, next);
    ActivateKeeps(Save(w1, st).0, st, next);
  }

  lemma RunningSees(w: World)
    requires Running(w).1 == Yes && w.running.Some?
    ensures w.running.value.digest in Running(w).0.observed && Running(w).0.running == w.running
  {
  }

  lemma ReplaceKeeps(w: World, st: State, next: Build)
    requires Inv(w) && Seen(st, w.observed)
    ensures Inv(Replace(w, st, next).0)
  {
    hide Inv, Ask, Running, Select;
    StepsKeep(w, st, next);
    var (w1, known) := Running(w);
    if known == Yes {
      assert w1.running == w.running by { RunningFrame(w); }
      if w.running.None? {
        SelectKeeps(w1, st, next);
      } else {
        RunningSees(w);
        StepsKeep(w1, st, next);
        SelectKeeps(Ask(w1).0, st.(current := w1.running), next);
      }
    }
  }

  lemma RunningFrame(w: World)
    ensures Running(w).0.running == w.running && Running(w).0.disk == w.disk
  {
  }

  /** Four calls without effect on state or process. */
  lemma AskFrame(w: World)
    ensures Ask(w).0.disk == w.disk && Ask(w).0.running == w.running && Ask(w).0.observed == w.observed
  {
  }

  lemma InstallKeeps(w: World, next: Build)
    requires Inv(w)
    ensures Inv(Install(w, next).0)
  {
    hide Ask, Replace;
    var w1 := Ask(w).0;
    var w2 := Ask(w1).0;
    var w3 := Ask(w2).0;
    AskFrame(w);
    AskFrame(w1);
    AskFrame(w2);
    AskFrame(w3);
    ReplaceKeeps(Ask(w3).0, w2.disk, next);
  }

  lemma AbandonKeeps(w: World, pending: Build)
    requires Inv(w)
    ensures Inv(Abandon(w, pending).0)
  {
    hide Inv, Running, Stop, Save;
    assert Seen(Nothing, w.observed);
    StepsKeep(w, Nothing, pending);
    var w1 := Running(w).0;
    StepsKeep(w1, Nothing, pending);
    StepsKeep(Stop(w1).0, Nothing, pending);
  }

  lemma RollbackKeeps(w: World)
    requires Inv(w)
    ensures Inv(Rollback(w).0)
  {
    hide Ask, Abandon, Activate;
    var w1 := Ask(w).0;
    var w2 := Ask(w1).0;
    AskFrame(w);
    AskFrame(w1);
    AskFrame(w2);
    var st := w2.disk;
    if st.pending.Some? && st.current.None? {
      AbandonKeeps(w2, st.pending.value);
    } else {
      var target := if st.pending.Some? then st.current else st.previous;
      if target.Some? {
        ActivateKeeps(Ask(w2).0, st, target.value);
      }
    }
  }

  lemma {:induction false} RunKeeps(w: World, events: seq<Event>)
    requires Inv(w)
    ensures Inv(Run(w, events))
    decreases |events|
  {
    if events != [] {
      hide Install, Rollback, Run;
      match events[0] {
        case Installs(next, script) => InstallKeeps(w.(script := script), next);
        case RollsBack(script) => RollbackKeeps(w.(script := script));
        case _ =>
      }
      RunKeeps(Step(w, events[0]), events[1..]);
      RunFirst(w, events);
    }
  }

  lemma RunFirst(w: World, events: seq<Event>)
    requires events != []
    ensures Run(w, events) == Run(Step(w, events[0]), events[1..])
  {
  }

  /** Whatever failed or crashed before, the recorded current build, and the previous one, were seen
      running with their recorded digests, and a previous build is never recorded without a current
      one. */
  lemma CurrentWasSeenRunning(events: seq<Event>)
    ensures var w := Run(Fresh, events); Seen(w.disk, w.observed)
  {
    RunKeeps(Fresh, events);
  }

  // ----- What one activation reports -----------------------------------------------------------------

  predicate RestoreTold(w: World, r: Result, original: State) {
    r == Error(PreviousRestored) ==> w.disk == original && w.running == original.current
  }

  lemma RestoreReports(w: World, original: State)
    requires w.running.None?
    ensures var (w', r) := Restore(w, original);
      && RestoreTold(w', r, original) && r != Done && r != Error(Cancelled)
      && (w'.disk == w.disk || w'.disk == original)
  {
  }

  lemma ApplyReports(w: World, original: State, next: Build)
    requires w.running == Some(next)
    ensures var (w', r) := Apply(w, original, next);
      && RestoreTold(w', r, original) && r != Error(Cancelled)
      && (r == Done ==> w'.disk == Applied(original, next) && w'.running == Some(next))
      && w'.disk in {w.disk, original, Applied(original, next)}
  {
    hide Restore;
    var w1 := Save(w, Applied(original, next)).0;
    var (w2, stopped) := Stop(w1);
    if stopped == Yes {
      RestoreReports(w2, original);
    }
  }

  lemma LaunchReports(w: World, original: State, next: Build)
    requires w.running.None?
    ensures var (w', r) := Launch(w, original, next);
      && RestoreTold(w', r, original) && r != Error(Cancelled)
      && (r == Done ==> w'.disk == Applied(original, next) && w'.running == Some(next))
      && w'.disk in {w.disk, original, Applied(original, next)}
  {
    hide Restore, Apply, Applied;
    var (w1, started) := Start(w, next);
    if started == No {
      RestoreReports(w1, original);
    } else if started == Yes {
      ApplyReports(w1, original, next);
    }
  }

  /** The outcome of an activation, wherever it stops: success means the new build is recorded and
      running, "restored" means the old one is, and a mark left behind still names both. */
  lemma ActivateReports(w: World, st: State, next: Build)
    ensures var (w', r) := Activate(w, st, next);
      var original := st.(pending := None);
      && RestoreTold(w', r, original)
      && (r == Done ==> w'.disk == Applied(original, next) && w'.running == Some(next))
      && (r == Error(Cancelled) ==> w'.disk == original)
      && w'.disk in {w.disk, st.(pending := Some(next)), original, Applied(original, next)}
  {
    hide Launch, Applied;
    var original := st.(pending := None);
    var w1 := Save(w, st.(pending := Some(next))).0;
    var (w2, stopped) := Stop(w1);
    if stopped == Yes {
      LaunchReports(w2, original, next);
    }
  }

  /** What an install starts from: the live build if there is one, else the recorded one. */
  function Base(w: World): State {
    if w.running.Some? then w.disk.(current := w.running) else w.disk
  }

  predicate InstallTold(w: World, next: Build, w': World, r: Result) {
    && (r == Done ==> w'.disk == State(Some(next), Base(w).current, None) && w'.running == Some(next))
    && (r == Error(PreviousRestored) ==> w'.disk == Base(w) && w'.running == Base(w).current)
    && (r == Error(Cancelled) ==> w'.disk == Base(w))
    && (w'.disk.pending.Some? ==> w'.disk == Base(w).(pending := Some(next)))
  }

  lemma RecordReports(w: World, st: State, next: Build, w0: World)
    requires st == Base(w0) && w0.disk.pending.None? && w.disk == w0.disk
    requires st.current.None? || st.current.value.digest != next.digest
    ensures var (w', r) := Record(w, st, next); InstallTold(w0, next, w', r)
  {
    hide Activate;
    ActivateReports(Save(w, st).0, st, next);
  }

  lemma SelectReports(w: World, st: State, next: Build, w0: World)
    requires st == Base(w0) && w0.disk.pending.None? && w.disk == w0.disk
    ensures var (w', r) := Select(w, st, next); InstallTold(w0, next, w', r)
  {
    hide Record, Ask;
    if st.current.None? || st.current.value.digest != next.digest {
      AskFrame(w);
      RecordReports(w, st, next, w0);
      RecordReports(Ask(w).0, st, next, w0);
    }
  }

  lemma ReplaceReports(w: World, next: Build, w0: World)
    requires w0.disk.pending.None? && w.disk == w0.disk && w.running == w0.running
    ensures var (w', r) := Replace(w, w.disk, next); InstallTold(w0, next, w', r)
  {
    hide Select, Ask, Running;
    RunningFrame(w);
    var w1 := Running(w).0;
    AskFrame(w1);
    SelectReports(if w.running.None? then w1 else Ask(w1).0, Base(w0), next, w0);
  }

  /** An install tells the truth about what it left behind. A mark it leaves names the build to
      return to: the one that was running. */
  lemma InstallReports(w: World, next: Build)
    requires w.disk.pending.None?
    ensures var (w', r) := Install(w, next); InstallTold(w, next, w', r)
  {
    hide Ask, Replace;
    var w1 := Ask(w).0;
    var w2 := Ask(w1).0;
    var w3 := Ask(w2).0;
    AskFrame(w);
    AskFrame(w1);
    AskFrame(w2);
    AskFrame(w3);
    ReplaceReports(Ask(w3).0, next, w);
  }

  /** An interrupted installation blocks the next one without touching anything. */
  lemma InterruptedBlocksInstall(w: World, next: Build)
    requires w.disk.pending.Some?
    ensures var (w', r) := Install(w, next);
      r != Done && w'.disk == w.disk && w'.running == w.running
  {
    hide Replace;
  }

  // ----- Recovery ------------------------------------------------------------------------------------

  /** Storage and process control work for as long as a rollback needs them. */
  predicate Working(script: seq<Outcome>) {
    |script| >= 7 && forall i | 0 <= i < 7 :: script[i] == Works
  }

  /** No mark is left, and what runs is the recorded build, or nothing when none is recorded. */
  predicate Settled(w: World) {
    && w.disk.pending.None?
    && match w.disk.current
       case None => w.running.None?
       case Some(b) => w.running.Some? && w.running.value.digest == b.digest
  }

  /** What an operator can check beforehand. */
  predicate Recoverable(w: World) {
    match w.disk.pending
    case Some(p) => w.disk.current.Some? || w.running.None? || w.running.value.digest == p.digest
    case None => w.disk.previous.Some? || Settled(w)
  }

  /** `n` more calls will work. */
  predicate Ready(w: World, n: nat) {
    |w.script| >= n && forall i | 0 <= i < n :: w.script[i] == Works
  }

  lemma WorkingStep(w: World, n: nat)
    requires n > 0 && Ready(w, n)
    ensures Next(w) == Works && Ready(Tail(w), n - 1)
    ensures Tail(w).disk == w.disk && Tail(w).running == w.running
  {
  }

  /** With everything working an activation ends with the target recorded and running. */
  lemma ActivateWorks(w: World, st: State, next: Build)
    requires Ready(w, 4)
    ensures var (w', r) := Activate(w, st, next);
      r == Done && w'.disk == Applied(st.(pending := None), next) && w'.running == Some(next)
  {
    hide Ready, Restore, Applied;
    var original := st.(pending := None);
    var w1 := Save(w, st.(pending := Some(next))).0;
    WorkingStep(w, 4);
    ReadyFrame(Tail(w), w1, 3);
    var w2 := Stop(w1).0;
    WorkingStep(w1, 3);
    ReadyFrame(Tail(w1), w2, 2);
    LaunchWorks(w2, original, next);
  }

  lemma ReadyFrame(w: World, w': World, n: nat)
    requires Ready(w, n) && w'.script == w.script
    ensures Ready(w', n)
  {
  }

  lemma LaunchWorks(w: World, original: State, next: Build)
    requires Ready(w, 2) && w.running.None?
    ensures var (w', r) := Launch(w, original, next);
      r == Done && w'.disk == Applied(original, next) && w'.running == Some(next)
  {
    hide Ready, Restore, Applied;
    var w1 := Start(w, next).0;
    WorkingStep(w, 2);
    ReadyFrame(Tail(w), w1, 1);
    WorkingStep(w1, 1);
  }

  lemma AbandonWorks(w: World, pending: Build)
    requires Ready(w, 3)
    ensures var (w', r) := Abandon(w, pending);
      if w.running.Some? && w.running.value.digest != pending.digest
      then r == Error(AnotherRuntime) && w'.disk == w.disk && w'.running == w.running
      else r == Done && w'.disk == Nothing && w'.running.None?
  {
    hide Ready;
    WorkingStep(w, 3);
    var w1 := Running(w).0;
    ReadyFrame(Tail(w), w1, 2);
    WorkingStep(w1, 2);
    var w2 := Stop(w1).0;
    ReadyFrame(Tail(w1), w2, 1);
    WorkingStep(w2, 1);
  }

  /** A rollback with working control and storage, in full. */
  lemma RollbackWorks(w: World)
    requires Ready(w, 7)
    ensures var (w', r) := Rollback(w);
      var target := if w.disk.pending.Some? then w.disk.current else w.disk.previous;
      if target.Some? then
        && r == Done && w'.running == target
        && w'.disk == Applied(w.disk.(pending := None), target.value)
      else if w.disk.pending.Some? && (w.running.None? || w.running.value.digest == w.disk.pending.value.digest) then
        r == Done && w'.disk == Nothing && w'.running.None?
      else
        r.Error? && w'.disk == w.disk && w'.running == w.running
  {
    hide Ready, Abandon, Activate, Applied;
    WorkingStep(w, 7);
    var w1 := Ask(w).0;
    WorkingStep(w1, 6);
    var w2 := Ask(w1).0;
    WorkingStep(w2, 5);
    var w3 := Ask(w2).0;
    ReadyLess(w2, 5, 3);
    if w.disk.pending.Some? && w.disk.current.None? {
      AbandonWorks(w2, w.disk.pending.value);
    } else {
      var target := if w.disk.pending.Some? then w.disk.current else w.disk.previous;
      if target.Some? {
        ActivateWorks(w3, w.disk, target.value);
      }
    }
  }

  lemma ReadyLess(w: World, n: nat, m: nat)
    requires Ready(w, n) && m <= n
    ensures Ready(w, m)
  {
  }

  /** Exactly when a rollback recovers. The condition fails in two ways only: a first install was
      interrupted and a foreign build runs, or no mark is left, there is no previous build, and what
      runs is not what is recorded. */
  lemma RollbackRecovers(events: seq<Event>, script: seq<Outcome>)
    requires Working(script)
    ensures var w := Run(Fresh, events);
      Settled(Step(w, RollsBack(script))) <==> Recoverable(w)
  {
    var w := Run(Fresh, events).(script := script);
    RollbackWorks(w);
    hide Rollback, Run;
  }

  /** An install that leaves a mark, however it was interrupted, is undone by a working rollback: the
      build that was running before it runs again. */
  lemma InterruptedInstallIsUndone(w: World, next: Build, broken: seq<Outcome>, script: seq<Outcome>)
    requires w.disk.pending.None? && Base(w).current.Some? && Working(script)
    requires Step(w, Installs(next, broken)).disk.pending.Some?
    ensures var w' := Step(Step(w, Installs(next, broken)), RollsBack(script));
      && Settled(w') && w'.running == Base(w).current
      && w'.disk.current == Base(w).current && w'.disk.previous == w.disk.previous
  {
    InstallReports(w.(script := broken), next);
    var w1 := Step(w, Installs(next, broken)).(script := script);
    RollbackWorks(w1);
    hide Install, Rollback;
  }

  // ----- The two ways in which a rollback does not recover -------------------------------------------

  const A := Build("a", "aaaa")
  const B := Build("b", "bbbb")

  /** A first install whose last save is reported to fail after it took effect, and whose repair is cut
      short: the new build is recorded, unmarked, and nothing runs. */
  const AMBIGUOUS_SAVE: seq<Outcome> :=
    [Works, Works, Works, Works, Works, Works, Works, Works, Works, FailsAfter, Works]

  /** A first install whose first six calls work gets to its activation. */
  lemma FirstInstall(script: seq<Outcome>)
    requires |script| >= 6 && forall i | 0 <= i < 6 :: script[i] == Works
    ensures Install(Fresh.(script := script), A) == Activate(Fresh.(script := script[6..]), Nothing, A)
  {
    hide Activate, Ask, Running;
    AskWorks(script);
    AskWorks(script[1..]);
    AskWorks(script[2..]);
    AskWorks(script[3..]);
    AskWorks(script[4..]);
    AskWorks(script[5..]);
    assert script[1..][1..] == script[2..] && script[2..][1..] == script[3..] && script[3..][1..] == script[4..];
    assert script[4..][1..] == script[5..] && script[5..][1..] == script[6..];
  }

  lemma AskWorks(script: seq<Outcome>)
    requires script != [] && script[0] == Works
    ensures var w, w' := Fresh.(script := script), Fresh.(script := script[1..]);
      Ask(w) == (w', Yes) && Running(w) == (w', Yes) && Save(w, Nothing) == (w', Yes)
  {
  }

  lemma AmbiguousSaveIsNotRecovered(script: seq<Outcome>)
    requires Working(script)
    ensures var w := Run(Fresh, [Installs(A, AMBIGUOUS_SAVE)]);
      && w.disk == State(Some(A), None, None) && w.running.None?
      && !Settled(Step(w, RollsBack(script)))
  {
    FirstInstall(AMBIGUOUS_SAVE);
    AmbiguousSaveLeaves();
    RollbackRecovers([Installs(A, AMBIGUOUS_SAVE)], script);
    OneEvent(Installs(A, AMBIGUOUS_SAVE));
    hide Install, Activate, Rollback, Run;
  }

  lemma OneEvent(e: Event)
    ensures Run(Fresh, [e]) == Step(Fresh, e)
  {
    assert Run(Step(Fresh, e), []) == Step(Fresh, e);
  }

  lemma AmbiguousSaveLeaves()
    ensures var (w, _) := Activate(Fresh.(script := AMBIGUOUS_SAVE[6..]), Nothing, A);
      w.disk == State(Some(A), None, None) && w.running.None?
  {
    hide Launch;
    var s := AMBIGUOUS_SAVE[6..];
    assert s == [Works, Works, Works, FailsAfter, Works];
    assert s[1..][1..] == [Works, FailsAfter, Works];
    var marked := World(State(None, None, Some(A)), None, {}, [Works, FailsAfter, Works]);
    assert Activate(Fresh.(script := s), Nothing, A) == Launch(marked, Nothing, A);
    AmbiguousLaunchLeaves(marked);
  }

  lemma AmbiguousLaunchLeaves(w: World)
    requires w.running.None? && w.script == [Works, FailsAfter, Works]
    ensures Launch(w, Nothing, A).0.disk == State(Some(A), None, None) && Launch(w, Nothing, A).0.running.None?
  {
    assert w.script[1..] == [FailsAfter, Works] && [FailsAfter, Works][1..] == [Works];
    assert [Works][1..] == [];
  }

  /** A first install cut short after its mark, and a foreign build started by hand. */
  const CUT_SHORT: seq<Outcome> := [Works, Works, Works, Works, Works, Works, Works]

  lemma ForeignBuildIsNotRecovered(script: seq<Outcome>)
    requires Working(script)
    ensures var w := Run(Fresh, [Installs(A, CUT_SHORT), OtherStarts(B)]);
      && w.disk == State(None, None, Some(A)) && w.running == Some(B)
      && !Settled(Step(w, RollsBack(script)))
  {
    var events := [Installs(A, CUT_SHORT), OtherStarts(B)];
    FirstInstall(CUT_SHORT);
    CutShortLeaves();
    RollbackRecovers(events, script);
    var w1 := Step(Fresh, events[0]);
    assert events[1..] == [OtherStarts(B)];
    assert Run(Fresh, events) == Run(w1, [OtherStarts(B)]);
    assert Run(w1, [OtherStarts(B)]) == Step(w1, OtherStarts(B)) by {
      assert Run(Step(w1, OtherStarts(B)), []) == Step(w1, OtherStarts(B));
    }
    hide Install, Activate, Rollback, Run;
  }

  lemma CutShortLeaves()
    ensures var (w, _) := Activate(Fresh.(script := CUT_SHORT[6..]), Nothing, A);
      w.disk == State(None, None, Some(A)) && w.running.None?
  {
    assert CUT_SHORT[6..] == [Works];
    assert [Works][1..] == [];
  }
}
