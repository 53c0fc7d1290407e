/** Concrete runs in which a group does not do what its comments promise. */
module GroupRuns {
  import opened Group
  import opened GroupInvariant
  import opened GroupSafety
  import opened GroupProgress
  import opened GroupOverlap

  // ----- pieces of runs -----

  /** StopAndWait is called and runs the body of Start. */
  const STOP_ENTERS: seq<Action> := [StopCall(0), StopEnter(0), StopStep]

  lemma StopIsEntered(run: seq<Action>, s: State) returns (t: State)
    requires Exec(INIT, run) == Next(s) && s.stop == INIT.stop
    ensures Exec(INIT, run + [StopCall(0), StopEnter(0)]) == Next(t)
    ensures t == s.(stop := INIT.stop.(pc := CallingStart, calls := map[0 := Calling]))
  {
    var r;
    r, t := Extend(run, s, StopCall(0));
    r, t := Extend(r, t, StopEnter(0));
    assert r == run + [StopCall(0), StopEnter(0)];
  }

  lemma StopRunsStart(run: seq<Action>, s: State) returns (t: State)
    requires Exec(INIT, run) == Next(s) && s.stop == INIT.stop && s.start.pc.NotEntered?
    ensures Exec(INIT, run + STOP_ENTERS) == Next(t)
    ensures t == s.(start := s.start.(pc := SpawnReconcile),
                    stop := INIT.stop.(pc := CallingStart, calls := map[0 := Calling]))
  {
    var r;
    t := StopIsEntered(run, s);
    r, t := Extend(run + [StopCall(0), StopEnter(0)], t, StopStep);
    assert r == run + STOP_ENTERS;
  }

  /** The body of Start up to its sending loop. */
  const START_BODY: seq<Action> := [StartStep, StartStep, StartStep]

  lemma StartBodyBegins(run: seq<Action>, s: State) returns (t: State)
    requires Exec(INIT, run) == Next(s) && s.start.pc.SpawnReconcile? && s.lk.start.Free?
    ensures Exec(INIT, run + START_BODY) == Next(t)
    ensures t == s.(lk := s.lk.(start := ByStart), g := s.g.(started := true), h := s.h.(initial := s.g.queue),
                    start := s.start.(pc := SendQueued(0)), recon := Receiving)
  {
    var r;
    r, t := Extend(run, s, StartStep);
    r, t := Extend(r, t, StartStep);
    r, t := Extend(r, t, StartStep);
    assert r == run + START_BODY;
  }

  /** The rest of it when nothing is queued. */
  const START_REST: seq<Action> := [StartStep, StartStep, StartStep, StartStep]

  lemma EmptyStartUnlocks(run: seq<Action>, s: State) returns (t: State)
    requires Exec(INIT, run) == Next(s) && s.start.pc == SendQueued(0) && s.g.queue == []
    ensures Exec(INIT, run + [StartStep, StartStep]) == Next(t)
    ensures t == s.(lk := s.lk.(start := Free), start := s.start.(pc := TestEmpty))
  {
    var r;
    r, t := Extend(run, s, StartStep);
    r, t := Extend(r, t, StartStep);
    assert r == run + [StartStep, StartStep];
  }

  lemma EmptyStartEnds(run: seq<Action>, s: State) returns (t: State)
    requires Exec(INIT, run) == Next(s) && s.start.pc == SendQueued(0) && s.g.queue == []
    ensures Exec(INIT, run + START_REST) == Next(t)
    ensures t == s.(lk := s.lk.(start := Free), g := s.g.(readyClosed := true), start := s.start.(pc := Finished))
  {
    var u := EmptyStartUnlocks(run, s);
    var r;
    r, t := Extend(run + [StartStep, StartStep], u, StartStep);
    r, t := Extend(r, t, StartStep);
    assert r == run + START_REST;
  }

  /** A StopAndWait that finds the body of Start over and no reader locks r.stop, sets stopped and unlocks. */
  const STOP_UNLOCKS: seq<Action> := [StopStep, StopStep, StopStep, StopStep, StopStep]

  lemma StopLocks(run: seq<Action>, s: State) returns (t: State)
    requires Exec(INIT, run) == Next(s) && s.stop.pc.CallingStart? && s.start.pc.Finished? && s.lk == INIT.lk
    ensures Exec(INIT, run + [StopStep, StopStep, StopStep]) == Next(t)
    ensures t == s.(lk := INIT.lk.(writer := Held), stop := s.stop.(pc := SetStopped))
  {
    var r;
    r, t := Extend(run, s, StopStep);
    r, t := Extend(r, t, StopStep);
    r, t := Extend(r, t, StopStep);
    assert r == run + [StopStep, StopStep, StopStep];
  }

  lemma StopSetsStopped(run: seq<Action>, s: State) returns (t: State)
    requires Exec(INIT, run) == Next(s) && s.stop.pc.CallingStart? && s.start.pc.Finished? && s.lk == INIT.lk
    ensures Exec(INIT, run + STOP_UNLOCKS) == Next(t)
    ensures t == s.(g := s.g.(stopped := true), stop := s.stop.(pc := CancelCtx))
  {
    var u := StopLocks(run, s);
    var r;
    r, t := Extend(run + [StopStep, StopStep, StopStep], u, StopStep);
    r, t := Extend(r, t, StopStep);
    assert r == run + STOP_UNLOCKS;
  }

  // ----- an Add during StopAndWait that panics -----

  // Add(0) finds the group not stopped; then StopAndWait runs the body of Start on an empty queue.
  const PASSES: seq<Action> := [AddCall(0), AddStep(0), AddStep(0), AddStep(0)]
  const OVERLAP: seq<Action> := PASSES + STOP_ENTERS + START_BODY + START_REST

  lemma AddPassesFirst()
    ensures Exec(INIT, PASSES) == Next(INIT.(adds := map[0 := WantStartLock]))
  {
    var run, s := Extend([], INIT, AddCall(0));
    run, s := Extend(run, s, AddStep(0));
    run, s := Extend(run, s, AddStep(0));
    run, s := Extend(run, s, AddStep(0));
    assert run == PASSES;
  }

  lemma OverlapBegins() returns (s: State)
    ensures Exec(INIT, OVERLAP) == Next(s) && s.lk == INIT.lk && s.adds == map[0 := WantStartLock] && s.h == INIT.h
    ensures s.g == INIT.g.(started := true, readyClosed := true) && s.start.pc.Finished? && s.recon.Receiving?
    ensures s.stop.pc.CallingStart?
  {
    AddPassesFirst();
    s := StopRunsStart(PASSES, INIT.(adds := map[0 := WantStartLock]));
    s := StartBodyBegins(PASSES + STOP_ENTERS, s);
    s := EmptyStartEnds(PASSES + STOP_ENTERS + START_BODY, s);
  }

  /** StopAndWait sets stopped while Add(0) is past its check, so a panic can follow. */
  lemma AddDuringStopCanPanic()
    ensures exists s, more ::
      && Exec(INIT, OVERLAP + STOP_UNLOCKS) == Next(s)
      && s.g.stopped && s.adds == map[0 := WantStartLock] && Exec(s, more).Panic?
  {
    var s := OverlapBegins();
    s := StopSetsStopped(OVERLAP, s);
    assert Reachable(s);
    ReachableInv(s);
    assert Slipping(s, 0);
    var more := StoppedPanics(s, 0);
  }

  // ----- an Add during StopAndWait that returns nil -----

  const ADD: seq<Action> := [AddStep(0), AddStep(0), AddStep(0), AddStep(0), AddStep(0), AddStep(0)]

  /** Add(0) is called after StopAndWait was entered, is queued and returns nil: no error and no panic. */
  lemma AddDuringStopCanReturnNil()
    ensures Exec(INIT, [StopCall(0), StopEnter(0), AddCall(0)] + ADD) == Next(INIT.(
      g := INIT.g.(queue := [0]), adds := map[0 := ReturnedNil],
      stop := INIT.stop.(pc := CallingStart, calls := map[0 := Calling])))
  {
    var run, s := Extend([], INIT, StopCall(0));
    run, s := Extend(run, s, StopEnter(0));
    run, s := Extend(run, s, AddCall(0));
    assert run == [StopCall(0), StopEnter(0), AddCall(0)];
    var t := AddIsQueued(run, s);
  }

  /** An Add to a group whose locks are free and that is neither started nor stopped. */
  lemma AddIsQueued(run: seq<Action>, s: State) returns (t: State)
    requires Exec(INIT, run) == Next(s) && s.adds == map[0 := WantStopRLock] && s.lk == INIT.lk
    requires !s.g.started && !s.g.stopped
    ensures Exec(INIT, run + ADD) == Next(t)
    ensures t == s.(g := s.g.(queue := s.g.queue + [0]), adds := map[0 := ReturnedNil])
  {
    var r;
    r, t := Extend(run, s, AddStep(0));
    r, t := Extend(r, t, AddStep(0));
    r, t := Extend(r, t, AddStep(0));
    assert t == s.(adds := map[0 := WantStartLock]);
    r, t := Extend(r, t, AddStep(0));
    r, t := Extend(r, t, AddStep(0));
    r, t := Extend(r, t, AddStep(0));
    assert r == run + ADD;
  }

  const HANDS_OVER: seq<Action> := [AddStep(0), AddStep(0), AddStep(0), AddStep(0)]

  lemma LateAddGetsToSend(run: seq<Action>, s: State) returns (t: State)
    requires Exec(INIT, run) == Next(s) && s.adds == map[0 := WantStartLock] && s.lk.start.Free? && s.g.started
    ensures Exec(INIT, run + [AddStep(0), AddStep(0), AddStep(0)]) == Next(t)
    ensures t == s.(adds := map[0 := Sending])
  {
    var r;
    r, t := Extend(run, s, AddStep(0));
    r, t := Extend(r, t, AddStep(0));
    r, t := Extend(r, t, AddStep(0));
    assert r == run + [AddStep(0), AddStep(0), AddStep(0)];
  }

  lemma LateAddHandsOver(run: seq<Action>, s: State) returns (t: State)
    requires Exec(INIT, run) == Next(s) && s.adds == map[0 := WantStartLock] && s.lk.start.Free? && s.g.started
    requires s.recon.Receiving? && !s.g.chClosed
    ensures Exec(INIT, run + HANDS_OVER) == Next(t)
    ensures t == s.(adds := map[0 := ReturnedNil], recon := WantRLock(0))
  {
    var u := LateAddGetsToSend(run, s);
    var r;
    r, t := Extend(run + [AddStep(0), AddStep(0), AddStep(0)], u, AddStep(0));
    assert r == run + HANDS_OVER;
  }

  const DROPS: seq<Action> := [ReconStep, ReconStep, DrainRecon]

  lemma ReconDrops(run: seq<Action>, s: State) returns (t: State)
    requires Exec(INIT, run) == Next(s) && s.recon == WantRLock(0) && s.lk == INIT.lk && s.g.stopped
    ensures Exec(INIT, run + DROPS) == Next(t)
    ensures t.adds == s.adds && t.h.dropped == s.h.dropped + [0]
  {
    var r;
    r, t := Extend(run, s, ReconStep);
    r, t := Extend(r, t, ReconStep);
    r, t := Extend(r, t, DrainRecon);
    assert r == run + DROPS;
  }

  /** Add(0) is handed over to reconcile and returns nil, and its runnable is dropped. */
  lemma AddDuringStopCanBeDropped()
    ensures exists s ::
      && Exec(INIT, OVERLAP + HANDS_OVER + STOP_UNLOCKS + DROPS) == Next(s)
      && s.adds == map[0 := ReturnedNil] && s.h.dropped == [0]
  {
    var s := OverlapBegins();
    s := LateAddHandsOver(OVERLAP, s);
    s := StopSetsStopped(OVERLAP + HANDS_OVER, s);
    s := ReconDrops(OVERLAP + HANDS_OVER + STOP_UNLOCKS, s);
  }

  // ----- a StopAndWait that outlasts its context -----

  // One runnable is queued; StopAndWait runs the body of Start, and the context of both expires.
  const EXPIRES: seq<Action> := STOP_ENTERS + [StartCtxEnds(DeadlineExceeded), StopCtxEnds]

  const EXPIRED: State := INIT.(
    g := INIT.g.(queue := [0]), adds := map[0 := ReturnedNil],
    start := INIT.start.(pc := SpawnReconcile, ctx := DeadlineExceeded),
    stop := INIT.stop.(pc := CallingStart, expired := true, calls := map[0 := Calling]))

  const QUEUED: State := INIT.(g := INIT.g.(queue := [0]), adds := map[0 := ReturnedNil])

  lemma OneIsQueued()
    ensures Exec(INIT, [AddCall(0)] + ADD) == Next(QUEUED)
  {
    var run, s := Extend([], INIT, AddCall(0));
    assert run == [AddCall(0)];
    s := AddIsQueued(run, s);
  }

  lemma ContextsEnd(run: seq<Action>, s: State) returns (t: State)
    requires Exec(INIT, run) == Next(s) && s.start.ctx.Live?
    ensures Exec(INIT, run + [StartCtxEnds(DeadlineExceeded), StopCtxEnds]) == Next(t)
    ensures t == s.(start := s.start.(ctx := DeadlineExceeded), stop := s.stop.(expired := true))
  {
    var r;
    r, t := Extend(run, s, StartCtxEnds(DeadlineExceeded));
    r, t := Extend(r, t, StopCtxEnds);
    assert r == run + [StartCtxEnds(DeadlineExceeded), StopCtxEnds];
  }

  lemma StopExpires()
    ensures Exec(INIT, [AddCall(0)] + ADD + EXPIRES) == Next(EXPIRED)
  {
    OneIsQueued();
    var s := StopRunsStart([AddCall(0)] + ADD, QUEUED);
    s := ContextsEnd([AddCall(0)] + ADD + STOP_ENTERS, s);
    assert [AddCall(0)] + ADD + STOP_ENTERS + [StartCtxEnds(DeadlineExceeded), StopCtxEnds]
        == [AddCall(0)] + ADD + EXPIRES;
  }

  /** With its context expired, StopAndWait never returns as long as the Check of the queued runnable does not
      return true, be it that it never returns at all; nor is the context of that Check ever cancelled. */
  lemma ExpiredStopCanHang(more: seq<Action>)
    requires Exec(EXPIRED, more).Next? && CheckStep(0, true) !in more
    ensures Reachable(EXPIRED) && EXPIRED.stop.expired
    ensures !Exec(EXPIRED, more).state.stop.pc.StopFinished? && !Exec(EXPIRED, more).state.g.cancelled
  {
    StopExpires();
    ReachableInv(EXPIRED);
    OwedBlocks(EXPIRED, 0, more);
  }

  const SENT: seq<Action> := [AddCall(0)] + ADD + EXPIRES + START_BODY + [StartStep]

  lemma QueuedIsSent() returns (s: State)
    ensures Exec(INIT, SENT) == Next(s)
    ensures s.g.queue == [0] && s.recon == WantRLock(0) && s.lk.writer.NoWriter? && !s.g.stopped
    ensures s.jobs == INIT.jobs && s.stop == EXPIRED.stop
  {
    StopExpires();
    s := StartBodyBegins([AddCall(0)] + ADD + EXPIRES, EXPIRED);
    var run;
    run, s := Extend([AddCall(0)] + ADD + EXPIRES + START_BODY, s, StartStep);
  }

  const LAUNCHES: seq<Action> := [ReconStep, ReconStep, ReconStep, ReconStep, ReconStep]

  lemma ReconAdmits(run: seq<Action>, s: State) returns (t: State)
    requires Exec(INIT, run) == Next(s) && s.recon == WantRLock(0) && s.lk.writer.NoWriter? && !s.g.stopped
    requires s.stop.waiter.WaiterNotSpawned?
    ensures Exec(INIT, run + [ReconStep, ReconStep, ReconStep]) == Next(t)
    ensures t == s.(lk := s.lk.(readers := s.lk.readers + {ReconReader}), g := Admit(s.g), recon := Admitted(0))
  {
    var r;
    r, t := Extend(run, s, ReconStep);
    r, t := Extend(r, t, ReconStep);
    r, t := Extend(r, t, ReconStep);
    assert r == run + [ReconStep, ReconStep, ReconStep];
  }

  lemma ReconLaunches(run: seq<Action>, s: State) returns (t: State)
    requires Exec(INIT, run) == Next(s) && s.recon == WantRLock(0) && s.lk.writer.NoWriter? && !s.g.stopped
    requires s.stop.waiter.WaiterNotSpawned?
    ensures Exec(INIT, run + LAUNCHES) == Next(t)
    ensures t.g.queue == s.g.queue && t.stop == s.stop
    ensures t.jobs == s.jobs.(runners := s.jobs.runners[0 := SpawnCheck])
  {
    var u := ReconAdmits(run, s);
    var r;
    r, t := Extend(run + [ReconStep, ReconStep, ReconStep], u, ReconStep);
    r, t := Extend(r, t, ReconStep);
    assert r == run + LAUNCHES;
  }

  const CHECK_FAILS: seq<Action> := [RunnerStep(0, false), CheckStep(0, false)]

  lemma CheckFails(run: seq<Action>, s: State) returns (t: State)
    requires Exec(INIT, run) == Next(s) && s.jobs == Jobs(map[0 := SpawnCheck], map[]) && s.g.queue == [0]
    ensures Exec(INIT, run + CHECK_FAILS) == Next(t) && t.stop == s.stop && Failed(t, 0)
  {
    var r;
    r, t := Extend(run, s, RunnerStep(0, false));
    r, t := Extend(r, t, CheckStep(0, false));
    assert r == run + CHECK_FAILS;
  }

  lemma FailedIsStuck(s: State)
    requires Failed(s, 0)
    ensures Stuck(s, iset{})
  {
    assert Owed(s, 0);
  }

  /** When that Check returns false instead, nothing at all can make the expired StopAndWait return. */
  lemma ExpiredStopCanBeLost()
    ensures exists s ::
      && Exec(INIT, SENT + LAUNCHES + CHECK_FAILS) == Next(s) && s.stop.expired
      && forall more :: Exec(s, more).Next? ==> !Exec(s, more).state.stop.pc.StopFinished?
  {
    var s := QueuedIsSent();
    s := ReconLaunches(SENT, s);
    s := CheckFails(SENT + LAUNCHES, s);
    FailedIsStuck(s);
    assert Reachable(s);
    ReachableInv(s);
    forall more | Exec(s, more).Next?
      ensures !Exec(s, more).state.stop.pc.StopFinished?
    {
      StuckBlocks(s, iset{}, more);
    }
  }
}
