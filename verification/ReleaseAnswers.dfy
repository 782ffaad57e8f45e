/** What an installation comes to when it is let work, and how it repairs a step that fails. */
module ReleaseAnswers {
  import opened Prelude
  import opened Release
  import opened ReleaseHistory

  lemma AskStep(w: World, n: nat)
    requires n > 0 && Ready(w, n)
    ensures Ask(w) == (Tail(w), Yes) && Ready(Tail(w), n - 1) && Tail(w).disk == w.disk && Tail(w).running == w.running
  {
    WorkingStep(w, n);
  }

  /** With everything working an installation refuses an interrupted state and the build that is selected already;
      otherwise the new build runs and is recorded, over the build that ran or was recorded before. */
  lemma InstallWorks(w: World, next: Build)
    requires Ready(w, 12)
    ensures var (w', r) := Install(w, next);
      var before := if w.running.Some? then w.running else w.disk.current;
      if w.disk.pending.Some? then r == Error(InterruptedBefore) && w'.disk == w.disk && w'.running == w.running
      else if before.Some? && before.value.digest == next.digest then
        r == Error(AlreadySelected) && w'.disk == w.disk && w'.running == w.running
      else r == Done && w'.disk == State(Some(next), before, None) && w'.running == Some(next)
  {
    hide Ready, Ask, Tail, Replace;
    AskStep(w, 12);
    var w1 := Tail(w);
    AskStep(w1, 11);
    var w2 := Tail(w1);
    AskStep(w2, 10);
    var w3 := Tail(w2);
    AskStep(w3, 9);
    if w.disk.pending.None? {
      ReplaceWorks(Tail(w3), next);
    }
  }

  lemma ReplaceWorks(w: World, next: Build)
    requires Ready(w, 8) && w.disk.pending.None?
    ensures var (w', r) := Replace(w, w.disk, next);
      var before := if w.running.Some? then w.running else w.disk.current;
      if before.Some? && before.value.digest == next.digest then
        r == Error(AlreadySelected) && w'.disk == w.disk && w'.running == w.running
      else r == Done && w'.disk == State(Some(next), before, None) && w'.running == Some(next)
  {
    WorkingStep(w, 8);
    var w1 := Running(w).0;
    ReadyFrame(Tail(w), w1, 7);
    RunningFrame(w);
    AskStep(w1, 7);
    ReadyLess(w1, 7, 6);
    hide Ready, Ask, Tail, Select;
    assert Running(w).1 == Yes;
    SelectWorks(if w.running.Some? then Tail(w1) else w1, Base(w), next);
  }

  lemma SelectWorks(w: World, st: State, next: Build)
    requires Ready(w, 6) && st.pending.None? && (w.disk == st || w.disk.(current := st.current) == st)
    ensures var (w', r) := Select(w, st, next);
      if st.current.Some? && st.current.value.digest == next.digest then
        r == Error(AlreadySelected) && w'.disk == w.disk && w'.running == w.running
      else r == Done && w'.disk == State(Some(next), st.current, None) && w'.running == Some(next)
  {
    AskStep(w, 6);
    ReadyLess(w, 6, 5);
    hide Ready, Ask, Tail, Record;
    RecordWorks(if st.current.Some? then Tail(w) else w, st, next);
  }

  lemma RecordWorks(w: World, st: State, next: Build)
    requires Ready(w, 5) && st.pending.None?
    ensures var (w', r) := Record(w, st, next);
      r == Done && w'.disk == Applied(st, next) && w'.running == Some(next)
  {
    WorkingStep(w, 5);
    var w1 := Save(w, st).0;
    ReadyFrame(Tail(w), w1, 4);
    ActivateWorks(w1, st, next);
    hide Ready, Activate, Applied;
  }

  // ----- Repairs ---------------------------------------------------------------------------------------

  /** A runtime that cannot be stopped keeps running, and the mark is taken back. */
  lemma FailedStopIsCancelled(w: World, st: State, next: Build)
    requires |w.script| >= 3 && w.script[..3] == [Works, Fails, Works]
    ensures var (w', r) := Activate(w, st, next);
      r == Error(Cancelled) && w'.disk == st.(pending := None) && w'.running == w.running
  {
    assert w.script[0] == w.script[..3][0] && w.script[1] == w.script[..3][1] && w.script[2] == w.script[..3][2];
    assert w.script[1..][0] == w.script[1] && w.script[1..][1..][0] == w.script[2];
  }

  /** A build that does not start is replaced by the one before it. */
  lemma FailedStartIsRestored(w: World, st: State, next: Build)
    requires |w.script| >= 6 && w.script[..6] == [Works, Works, Fails, Works, Works, Works]
    ensures var (w', r) := Activate(w, st, next);
      r == Error(PreviousRestored) && w'.disk == st.(pending := None) && w'.running == st.current
  {
    hide Restore;
    assert forall i | 0 <= i < 6 :: w.script[i] == w.script[..6][i];
    var w1 := Save(w, st.(pending := Some(next))).0;
    assert w1.script == w.script[1..] && w1.script[0] == w.script[1];
    var w2 := Stop(w1).0;
    assert w2.script == w.script[2..] && w2.script[0] == w.script[2];
    var w3 := Start(w2, next).0;
    assert w3.script == w.script[3..] && forall i | 0 <= i < 3 :: w3.script[i] == w.script[i + 3];
    RestoreWorks(w3, st.(pending := None));
  }

  /** So is one that runs but could not be recorded. */
  lemma FailedRecordIsRestored(w: World, st: State, next: Build)
    requires |w.script| >= 8 && w.script[..8] == [Works, Works, Works, Fails, Works, Works, Works, Works]
    ensures var (w', r) := Activate(w, st, next);
      r == Error(PreviousRestored) && w'.disk == st.(pending := None) && w'.running == st.current
  {
    hide Restore, Applied;
    assert forall i | 0 <= i < 8 :: w.script[i] == w.script[..8][i];
    var w1 := Save(w, st.(pending := Some(next))).0;
    assert w1.script == w.script[1..] && w1.script[0] == w.script[1];
    var w2 := Stop(w1).0;
    assert w2.script == w.script[2..] && w2.script[0] == w.script[2];
    var w3 := Start(w2, next).0;
    assert w3.script == w.script[3..] && w3.script[0] == w.script[3];
    var w4 := Save(w3, Applied(st.(pending := None), next)).0;
    assert w4.script == w.script[4..] && w4.script[0] == w.script[4];
    var w5 := Stop(w4).0;
    assert w5.script == w.script[5..] && forall i | 0 <= i < 3 :: w5.script[i] == w.script[i + 5];
    RestoreWorks(w5, st.(pending := None));
  }

  lemma RestoreWorks(w: World, original: State)
    requires Ready(w, 3) && w.running.None?
    ensures var (w', r) := Restore(w, original);
      r == Error(PreviousRestored) && w'.disk == original && w'.running == original.current
  {
    AskStep(w, 3);
    var w1 := Tail(w);
    WorkingStep(w, 3);
    WorkingStep(w1, 2);
    if original.current.Some? {
      var w2 := Start(w1, original.current.value).0;
      ReadyFrame(Tail(w1), w2, 1);
      WorkingStep(w2, 1);
      hide Ready, Tail, Ask;
    }
  }

  // ----- Rolling back ----------------------------------------------------------------------------------

  /** With everything working a rollback of a settled state swaps the two recorded builds; an interrupted one goes back
      to its current build, and keeps the one before that. */
  lemma RollbackLeaves(w: World)
    requires Ready(w, 7)
    ensures var (w', r) := Rollback(w);
      && (w.disk.pending.Some? && w.disk.current.Some? ==>
            r == Done && w'.running == w.disk.current && w'.disk == State(w.disk.current, w.disk.previous, None))
      && (w.disk.pending.None? && w.disk.previous.Some? && w.disk.current.Some?
          && w.disk.current.value.digest != w.disk.previous.value.digest ==>
            r == Done && w'.running == w.disk.previous && w'.disk == State(w.disk.previous, w.disk.current, None))
      && (w.disk.pending.None? && w.disk.previous.None? ==>
            r == Error(NoPrevious) && w'.disk == w.disk && w'.running == w.running)
  {
    RollbackWorks(w);
    if w.disk.pending.None? && w.disk.previous.None? {
      AskStep(w, 7);
      AskStep(Tail(w), 6);
    }
    hide Activate, Ready;
  }
}
