/** What holds in every reachable state of a runnable group, whatever the interleaving. */
module GroupSafety {
  import opened Wrappers
  import opened Group
  import opened GroupInvariant

  // ----- panics -----

  // r.ch is open until StopAndWait has finished, hence throughout the body of Start.
  lemma StartNeverPanics(s: State)
    requires StopInv(s)
    ensures !StartStepOf(s).Panic?
  {
  }

  // wg.Add runs with r.stop held for reading and stopped false, hence before wg.Wait begins.
  lemma ReconNeverPanics(s: State)
    requires ReadInv(s) && StopInv(s)
    ensures !ReconStepOf(s).Panic?
  {
  }

  lemma RunnerNeverPanics(s: State, id: Id, fails: bool)
    requires WgInv(s)
    ensures !RunnerStepOf(s, id, fails).Panic?
  {
    assert id in s.jobs.runners && s.jobs.runners[id].WgDone? ==> id in LiveRunners(s.jobs.runners);
  }

  lemma CheckNeverPanics(s: State, id: Id, ready: bool)
    requires Inv(s)
    ensures !CheckStepOf(s, id, ready).Panic?
  {
    if id in s.jobs.checks && s.jobs.checks[id].Signalling? {
      SignalledRemains(s, id);
    }
  }

  lemma AddPanics(s: State, id: Id)
    requires StopInv(s) && AddStepOf(s, id).Panic?
    ensures s.adds[id].Sending? && s.stop.pc.StopFinished? && AddStepOf(s, id).cause == AddSentOnClosed(id)
  {
  }

  lemma OthersNeverPanic(s: State, a: Action)
    requires Step(s, a).Panic?
    ensures a.AddStep? || a.StartStep? || a.ReconStep? || a.RunnerStep? || a.CheckStep?
  {
  }

  /** No step panics except a late Add whose send finds r.ch closed. In particular no ready signal and no
      queued runnable is ever sent on a closed channel, the WaitGroup never goes negative, and wg.Add
      never runs once wg.Wait has begun. */
  lemma OnlyALateAddPanics(s: State, a: Action)
    requires Reachable(s) && Step(s, a).Panic?
    ensures a.AddStep? && a.id in s.adds && s.adds[a.id].Sending? && s.stop.pc.StopFinished?
    ensures Step(s, a).cause == AddSentOnClosed(a.id)
  {
    ReachableInv(s);
    match a
    case AddStep(id) => AddPanics(s, id);
    case StartStep => StartNeverPanics(s);
    case ReconStep => ReconNeverPanics(s);
    case RunnerStep(id, fails) => RunnerNeverPanics(s, id, fails);
    case CheckStep(id, ready) => CheckNeverPanics(s, id, ready);
    case _ => OthersNeverPanic(s, a);
  }

  /** While a runnable waits to signal, it is still in the queue. */
  lemma SignalledRemains(s: State, id: Id)
    requires Inv(s) && id in s.jobs.checks && s.jobs.checks[id].Signalling?
    ensures id in s.h.initial && id in s.g.queue
  {
    assert id in Sent(s.start.pc, s.h.initial);
    RemainingMember(s.h.initial, s.h.acked, id);
  }

  // ----- conservation -----

  // Add found the group not stopped.
  predicate Accepted(s: State, id: Id) {
    id in s.adds && (InWindow(s.adds[id]) || Delivered(s.adds[id]))
  }

  /** How often id occurs among: a pending Add, the unsent queue, reconcile, the launches, the drops. */
  function Places(s: State, id: Id): nat {
    (if id in s.adds && InWindow(s.adds[id]) then 1 else 0) + multiset(Unsent(s.start.pc, s.g.queue))[id]
    + multiset(HeldBy(s.recon))[id] + multiset(s.h.launched)[id] + multiset(s.h.dropped)[id]
  }

  /** Every accepted runnable is in exactly one place, and a rejected or unknown one is nowhere. */
  lemma Conservation(s: State, id: Id)
    requires Reachable(s)
    ensures Places(s, id) == if Accepted(s, id) then 1 else 0
  {
    ReachableInv(s);
    FlowConserves(s, id);
  }

  lemma FlowConserves(s: State, id: Id)
    requires FlowInv(s)
    ensures Places(s, id) == if Accepted(s, id) then 1 else 0
  {
    assert Bag(PipeOf(s))[id] == if DeliveredIn(s.adds, id) then 1 else 0;
  }

  /** No runnable is launched twice, and none is both launched and dropped. */
  lemma LaunchedAtMostOnce(s: State)
    requires Reachable(s)
    ensures NoDuplicates(s.h.launched)
    ensures forall id :: id in s.h.launched ==> id !in s.h.dropped && Accepted(s, id)
  {
    forall id
      ensures multiset(s.h.launched)[id] <= 1
    {
      Conservation(s, id);
    }
    CountsToNoDuplicates(s.h.launched);
    forall id | id in s.h.launched
      ensures id !in s.h.dropped && Accepted(s, id)
    {
      Conservation(s, id);
      assert multiset(s.h.launched)[id] >= 1;
    }
  }

  // ----- the WaitGroup and quiescence -----

  /** The counter is the number of runnables admitted by reconcile and not yet Done. */
  lemma WaitGroupCounts(s: State)
    requires Reachable(s)
    ensures s.g.wg == |LiveRunners(s.jobs.runners)| + (if s.recon.Admitted? || s.recon.Spawning? then 1 else 0)
    ensures s.recon.Admitted? || s.recon.Spawning? ==> s.recon.id !in s.jobs.runners
  {
    ReachableInv(s);
    FlowKeepsHeldFresh(s);
  }

  /** Once stopped is set no step adds to the WaitGroup. */
  lemma NoAdmissionOnceStopped(s: State, a: Action)
    requires Reachable(s) && s.g.stopped && Step(s, a).Next?
    ensures Step(s, a).state.g.stopped && Step(s, a).state.g.wg <= s.g.wg
  {
    ReachableInv(s);
    NoAdmission(s, a);
  }

  lemma NoAdmission(s: State, a: Action)
    requires ReadInv(s) && s.g.stopped && Step(s, a).Next?
    ensures Step(s, a).state.g.stopped && Step(s, a).state.g.wg <= s.g.wg
  {
    match a
    case AddStep(_) =>
    case ReconStep =>
    case StopStep =>
    case _ =>
  }

  predicate StoppedThroughDone(s: State) {
    s.stop.pc == CloseCh(true) || s.stop.pc == StopFinished(true)
  }

  lemma QuietStep(s: State, a: Action)
    requires StopInv(s) && WgInv(s) && StoppedThroughDone(s) && Step(s, a).Next?
    ensures StoppedThroughDone(Step(s, a).state) && Step(s, a).state.h.launched == s.h.launched
  {
    match a
    case ReconStep =>
    case StopStep =>
    case _ =>
  }

  lemma {:induction false} QuietRun(s: State, run: seq<Action>)
    requires Inv(s) && StoppedThroughDone(s) && Exec(s, run).Next?
    ensures Inv(Exec(s, run).state) && StoppedThroughDone(Exec(s, run).state)
    ensures Exec(s, run).state.h.launched == s.h.launched
    decreases |run|
  {
    if run != [] {
      QuietStep(s, run[0]);
      StepKeepsInv(s, run[0]);
      QuietRun(Step(s, run[0]).state, run[1..]);
    }
  }

  /** Once StopAndWait leaves its select through done, no runner is live and none is ever launched again,
      whatever Add and reconcile still do. */
  lemma QuiescentForever(s: State, run: seq<Action>)
    requires Reachable(s) && StoppedThroughDone(s) && Exec(s, run).Next?
    ensures LiveRunners(Exec(s, run).state.jobs.runners) == {}
    ensures Exec(s, run).state.h.launched == s.h.launched
  {
    ReachableInv(s);
    QuietRun(s, run);
  }

  /** Every call of StopAndWait, the first or a later one, returns only when the group is stopped, its
      context cancelled and its whole initial queue launched; through done, only when nothing is live. */
  lemma StopReturnsComplete(s: State, c: Caller)
    requires Reachable(s) && c in s.stop.calls && s.stop.calls[c].Returned?
    ensures s.g.stopped && s.g.cancelled && s.g.chClosed && s.h.initial <= s.h.launched
    ensures s.stop.pc.StopFinished? && (!s.stop.pc.viaDone ==> s.stop.expired)
    ensures s.stop.pc.viaDone ==> LiveRunners(s.jobs.runners) == {}
  {
    ReachableInv(s);
  }

  // ----- the queue -----

  /** Before the sending loop the queue grows at its end only, by the Add that found started false. */
  lemma QueueIsRegistrationOrder(s: State, a: Action)
    requires Reachable(s) && BeforeSends(s.start.pc) && Step(s, a).Next?
    ensures var t := Step(s, a).state;
      if a.AddStep? && a.id in s.adds && s.adds[a.id].ReadStarted? then t.g.queue == s.g.queue + [a.id]
      else t.g.queue == s.g.queue && (s.start.pc.SetStarted? && a.StartStep? ==> t.h.initial == s.g.queue)
  {
    ReachableInv(s);
    NothingChecked(s);
    QueueGrows(s, a);
  }

  // Before the sending loop nothing has been launched, so no check has run.
  lemma NothingChecked(s: State)
    requires OrderInv(s) && RunnerInv(s) && BeforeSends(s.start.pc)
    ensures s.jobs.checks.Keys == {}
  {
    assert |Handled(s)| == |s.h.launched| + |HeldBy(s.recon)|;
  }

  lemma QueueGrows(s: State, a: Action)
    requires StartInv(s) && s.jobs.checks.Keys == {} && BeforeSends(s.start.pc) && Step(s, a).Next?
    ensures var t := Step(s, a).state;
      if a.AddStep? && a.id in s.adds && s.adds[a.id].ReadStarted? then t.g.queue == s.g.queue + [a.id]
      else t.g.queue == s.g.queue && (s.start.pc.SetStarted? && a.StartStep? ==> t.h.initial == s.g.queue)
  {
    match a
    case AddStep(_) =>
    case StartStep =>
    case _ =>
  }

  /** The launches begin with the whole queue found by Start, in registration order; no late Add overtakes
      it and none of it is ever dropped. Once the group is stopped all of it has been launched. */
  lemma QueuedFirst(s: State)
    requires Reachable(s)
    ensures s.h.launched <= s.h.initial || s.h.initial <= s.h.launched
    ensures forall id :: id in s.h.dropped ==> id !in s.h.initial
    ensures s.g.stopped ==> s.start.pc.Finished? && s.h.initial <= s.h.launched
  {
    ReachableInv(s);
    LaunchesFollowQueue(s);
    LaunchedAtMostOnce(s);
    if s.h.dropped != [] {
      assert forall id :: id in s.h.initial ==> id in s.h.launched;
    }
  }

  lemma LaunchesFollowQueue(s: State)
    requires OrderInv(s) && StartInv(s) && AckInv(s)
    ensures s.h.launched <= s.h.initial || s.h.initial <= s.h.launched
  {
    RemainingOfAll(s.h.initial);
    assert |Handled(s)| == |s.h.launched| + |HeldBy(s.recon)|;
    assert s.h.launched == Handled(s)[..|s.h.launched|];
  }

  /** A call of Start returns only after every queued runnable was launched, its Check returned true and
      its signal was received. Only the call that ran the body can return an error, and only when its
      context passed its deadline. */
  lemma StartReturnsComplete(s: State, c: Caller)
    requires Reachable(s) && c in s.start.calls && s.start.calls[c].Returned?
    ensures s.h.initial <= s.h.launched && s.g.queue == []
    ensures forall id :: id in s.h.initial ==>
      id in s.h.acked && id in s.jobs.checks && s.jobs.checks[id].CheckDone?
    ensures s.start.calls[c].failed ==> s.start.owner == Some(c) && s.start.ctx.DeadlineExceeded?
  {
    ReachableInv(s);
    forall id | id in s.h.initial
      ensures id in s.h.acked
    {
      RemainingMember(s.h.initial, s.h.acked, id);
    }
    assert s.start.calls[c].failed ==> s.start.calls[c] == Returned(true);
  }

  /** Each received signal removes exactly its own runnable; what is left is the queue found by Start
      without the runnables acknowledged so far, in order. */
  lemma SignalShortensQueue(s: State, id: Id, ready: bool)
    requires Reachable(s) && CheckStepOf(s, id, ready).Next? && s.jobs.checks[id].Signalling?
    ensures var t := CheckStepOf(s, id, ready).state;
      && |t.g.queue| == |s.g.queue| - 1
      && s.g.queue == Remaining(s.h.initial, s.h.acked)
      && t.g.queue == Remaining(s.h.initial, s.h.acked + {id})
  {
    ReachableInv(s);
    SignalledRemains(s, id);
    RemoveFromRemaining(s.h.initial, s.h.acked, id);
    RemoveShortens(s.g.queue, id);
  }

  lemma {:induction false} RemoveShortens(q: seq<Id>, id: Id)
    ensures |RemoveFirst(q, id)| == if id in q then |q| - 1 else |q|
  {
    if q != [] && q[0] != id {
      RemoveShortens(q[1..], id);
    }
  }

  // ----- no circular wait -----

  /** While Start sends with r.start held, it or reconcile can move: reconcile never waits for a lock. */
  lemma StartNeverWaitsInVain(s: State)
    requires Reachable(s) && s.start.pc.SendQueued?
    ensures Step(s, StartStep).Next? || Step(s, ReconStep).Next?
  {
    ReachableInv(s);
  }

  predicate WriterIsGone(s: State) {
    s.lk.writer.NoWriter? && (s.stop.pc.CancelCtx? || StopCancelled(s.stop.pc))
  }

  lemma WriterStepsGone(s: State, a: Action)
    requires WriterIsGone(s) && Step(s, a).Next?
    ensures WriterIsGone(Step(s, a).state)
  {
    match a
    case StopStep =>
    case AddStep(_) =>
    case ReconStep =>
    case _ =>
  }

  lemma {:induction false} WriterStaysGone(s: State, run: seq<Action>)
    requires WriterIsGone(s) && Exec(s, run).Next?
    ensures WriterIsGone(Exec(s, run).state)
    decreases |run|
  {
    if run != [] {
      WriterStepsGone(s, run[0]);
      WriterStaysGone(Step(s, run[0]).state, run[1..]);
    }
  }

  /** When reconcile blocks on errChan with r.stop held for reading, the only writer has come and gone:
      nobody waits for that lock, now or later. */
  lemma DropBlocksNoWriter(s: State, run: seq<Action>)
    requires Reachable(s) && s.recon.SendDrop? && Exec(s, run).Next?
    ensures Exec(s, run).state.lk.writer.NoWriter? && !Exec(s, run).state.stop.pc.WantWLock?
  {
    ReachableInv(s);
    assert ReconReader in s.lk.readers;
    WriterStaysGone(s, run);
  }
}
