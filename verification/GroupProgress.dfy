/** When Start and StopAndWait can come to their end.

    Both can from every reachable state, provided that the Check of every queued runnable returns true. A
    Check that returns false and a Check that never returns keep both from ever returning, because the body
    of Start leaves its loop only when the queue is empty: not even the expiry of the context ends a
    StopAndWait that is waiting for it.
 */
module GroupProgress {
  import opened Group
  import opened GroupInvariant
  import opened GroupSafety

  // Queued, or about to be: an Add that has locked r.start before Start cannot be kept from its append.
  predicate Pledged(s: State, id: Id) {
    id in s.g.queue || (!s.g.started && id in s.adds && s.adds[id].ReadStarted?)
  }

  predicate CheckedTrue(s: State, id: Id) {
    id in s.jobs.checks && (s.jobs.checks[id].Signalling? || s.jobs.checks[id].CheckDone?)
  }

  /** Start has to wait for the Check of id to return true. */
  predicate Owed(s: State, id: Id) { Pledged(s, id) && !CheckedTrue(s, id) }

  predicate Failed(s: State, id: Id) {
    id in s.g.queue && id in s.jobs.checks && s.jobs.checks[id].CheckFailed?
  }

  /** Start waits for a runnable whose Check has returned false, or is one of those that never return true. */
  ghost predicate Stuck(s: State, silent: iset<Id>) {
    exists id :: Owed(s, id) && (id in silent || Failed(s, id))
  }

  /** In this run no Check of a runnable in silent returns true. */
  ghost predicate Spares(run: seq<Action>, silent: iset<Id>) {
    forall id :: id in silent ==> CheckStep(id, true) !in run
  }

  // A step of a goroutine of the group: no call from outside, and no end of a context.
  predicate Own(a: Action) {
    || a.AddStep? || a.StartStep? || a.ReconStep? || a.RunnerStep? || a.DrainRunner? || a.CheckStep?
    || a.StopStep? || a.WaiterStep?
  }

  predicate OwnSteps(run: seq<Action>) {
    forall a :: a in run ==> Own(a)
  }

  /** A run of the goroutines of the group alone in which no Check of a runnable in silent returns true. */
  ghost predicate Gentle(run: seq<Action>, silent: iset<Id>) { OwnSteps(run) && Spares(run, silent) }

  // ----- nothing ends without the checks that are owed -----

  lemma {:induction false} RemoveKeepsOthers(q: seq<Id>, id: Id, other: Id)
    requires other in q && other != id
    ensures other in RemoveFirst(q, id)
  {
    if q[0] != id && q[0] != other {
      RemoveKeepsOthers(q[1..], id, other);
    }
  }

  lemma OwedStaysOnCheck(s: State, other: Id, ready: bool, id: Id)
    requires Owed(s, id) && CheckStepOf(s, other, ready).Next? && !(other == id && ready)
    ensures Owed(CheckStepOf(s, other, ready).state, id)
    ensures Failed(s, id) ==> Failed(CheckStepOf(s, other, ready).state, id)
  {
    if other != id && id in s.g.queue {
      RemoveKeepsOthers(s.g.queue, other, id);
    }
  }

  lemma OwedStaysOnAdd(s: State, other: Id, id: Id)
    requires Owed(s, id) && AddStepOf(s, other).Next?
    ensures Owed(AddStepOf(s, other).state, id)
    ensures Failed(s, id) ==> Failed(AddStepOf(s, other).state, id)
  {
  }

  lemma OwedStaysOnStart(s: State, id: Id)
    requires StartLockInv(s) && Owed(s, id) && StartStepOf(s).Next?
    ensures Owed(StartStepOf(s).state, id)
    ensures Failed(s, id) ==> Failed(StartStepOf(s).state, id)
  {
  }

  lemma OwedStays(s: State, a: Action, id: Id)
    requires StartLockInv(s) && RunnerInv(s) && Owed(s, id) && a != CheckStep(id, true) && Step(s, a).Next?
    ensures Owed(Step(s, a).state, id)
    ensures Failed(s, id) ==> Failed(Step(s, a).state, id)
  {
    if a.CheckStep? {
      OwedStaysOnCheck(s, a.id, a.ready, id);
    } else if a.AddStep? {
      OwedStaysOnAdd(s, a.id, id);
    } else if a.StartStep? {
      OwedStaysOnStart(s, id);
    } else if !a.RunnerStep? {
      OthersLeaveDebt(s, a, Step(s, a).state);
    }
  }

  lemma OthersLeaveDebt(s: State, a: Action, t: State)
    requires Step(s, a) == Next(t) && !a.AddStep? && !a.StartStep? && !a.CheckStep? && !a.RunnerStep?
    ensures t.g.queue == s.g.queue && t.g.started == s.g.started && t.jobs.checks == s.jobs.checks
    ensures forall id :: id in s.adds ==> id in t.adds && t.adds[id] == s.adds[id]
  {
    match a
    case ReconStep =>
    case StopStep =>
    case StartSelectsCtx =>
    case DrainRecon =>
    case DrainRunner(_) =>
    case _ => CallsLeaveDebt(s, a, t);
  }

  lemma CallsLeaveDebt(s: State, a: Action, t: State)
    requires CallStepOf(s, a) == Next(t)
    ensures t.g.queue == s.g.queue && t.g.started == s.g.started && t.jobs.checks == s.jobs.checks
    ensures forall id :: id in s.adds ==> id in t.adds && t.adds[id] == s.adds[id]
  {
  }

  /** While a check is owed Start has not returned, StopAndWait is no further than its call of Start, and the
      context of the group, which a Check is given, is not cancelled. */
  lemma OwedIsEarly(s: State, id: Id)
    requires StartInv(s) && OrderInv(s) && StopInv(s) && Owed(s, id)
    ensures !s.start.pc.Finished? && (s.stop.pc.StopNotEntered? || s.stop.pc.CallingStart?) && !s.g.cancelled
  {
  }

  lemma OwedStep(s: State, a: Action, id: Id)
    requires Reachable(s) && Owed(s, id) && a != CheckStep(id, true) && Step(s, a).Next?
    ensures Reachable(Step(s, a).state) && Owed(Step(s, a).state, id)
    ensures Failed(s, id) ==> Failed(Step(s, a).state, id)
  {
    ReachableInv(s);
    OwedStays(s, a, id);
    StepReachable(s, a);
  }

  lemma OwedNow(s: State, id: Id)
    requires Reachable(s) && Owed(s, id)
    ensures !s.start.pc.Finished? && !s.g.cancelled && (s.stop.pc.StopNotEntered? || s.stop.pc.CallingStart?)
  {
    ReachableInv(s);
    OwedIsEarly(s, id);
  }

  /** A check that is owed is owed until it returns true, and then Start and StopAndWait have not returned,
      whatever their contexts do. */
  lemma {:induction false} OwedBlocks(s: State, id: Id, run: seq<Action>)
    requires Reachable(s) && Owed(s, id) && CheckStep(id, true) !in run && Exec(s, run).Next?
    ensures var t := Exec(s, run).state;
      && Owed(t, id) && !t.start.pc.Finished? && !t.g.cancelled
      && (t.stop.pc.StopNotEntered? || t.stop.pc.CallingStart?)
    decreases |run|
  {
    if run == [] {
      OwedNow(s, id);
    } else {
      assert run[0] in run;
      OwedStep(s, run[0], id);
      OwedBlocks(Step(s, run[0]).state, id, run[1..]);
    }
  }

  lemma FailedIsOver(s: State, id: Id)
    requires Failed(s, id)
    ensures CheckStepOf(s, id, true).Blocked? && Owed(s, id)
  {
  }

  /** A Check that has returned false is over. */
  lemma {:induction false} FailedNeverReady(s: State, id: Id, run: seq<Action>)
    requires Reachable(s) && Failed(s, id) && Exec(s, run).Next?
    ensures CheckStep(id, true) !in run
    decreases |run|
  {
    if run != [] {
      FailedIsOver(s, id);
      OwedStep(s, run[0], id);
      FailedNeverReady(Step(s, run[0]).state, id, run[1..]);
    }
  }

  lemma StuckBlocks(s: State, silent: iset<Id>, run: seq<Action>)
    requires Reachable(s) && Stuck(s, silent) && Spares(run, silent) && Exec(s, run).Next?
    ensures var t := Exec(s, run).state;
      !t.start.pc.Finished? && (t.stop.pc.StopNotEntered? || t.stop.pc.CallingStart?) && !t.g.cancelled
  {
    var id :| Owed(s, id) && (id in silent || Failed(s, id));
    if Failed(s, id) {
      FailedNeverReady(s, id, run);
    }
    OwedBlocks(s, id, run);
  }

  /** Every run at whose end Start has returned, or StopAndWait is past its call of Start, holds the true
      return of each Check owed at its beginning. */
  lemma EndNeedsEveryCheck(s: State, run: seq<Action>, id: Id)
    requires Reachable(s) && Exec(s, run).Next? && Owed(s, id)
    requires var t := Exec(s, run).state;
      t.start.pc.Finished? || !(t.stop.pc.StopNotEntered? || t.stop.pc.CallingStart?)
    ensures CheckStep(id, true) in run
  {
    ReachableInv(s);
    if CheckStep(id, true) !in run {
      OwedBlocks(s, id, run);
    }
  }

  // ----- Start -----

  function Stage(pc: StartPc): nat {
    match pc
    case NotEntered => 9
    case SpawnReconcile => 8
    case WantLock => 7
    case SetStarted => 6
    case SendQueued(_) => 5
    case UnlockStart => 4
    case TestEmpty => 3
    case AwaitReady => 2
    case CloseReady => 1
    case Finished => 0
  }

  function Left(s: State): nat {
    match s.start.pc
    case SendQueued(n) => if n <= |s.g.queue| then |s.g.queue| - n else 0
    case AwaitReady => |s.g.queue|
    case _ => 0
  }

  function ReconRank(pc: ReconPc): nat {
    match pc
    case WantRLock(_) => 5
    case ReadStop(_) => 4
    case WillAdmit(_) => 3
    case Admitted(_) => 2
    case Spawning(_) => 1
    case _ => 0
  }

  function LockRank(s: State): nat {
    if s.lk.start.ByAdd? && s.lk.start.id in s.adds then
      if s.adds[s.lk.start.id].ReadStarted? then 2 else 1
    else 0
  }

  // How far the first runnable of the queue is from its ready signal.
  function SignalRank(s: State): nat {
    if s.g.queue == [] then 0
    else
      var id := s.g.queue[0];
      if id !in s.jobs.runners then 4 + ReconRank(s.recon)
      else if id !in s.jobs.checks then 3
      else if s.jobs.checks[id].Checking? then 2
      else 1
  }

  function Wait(s: State): nat {
    match s.start.pc
    case WantLock => LockRank(s)
    case SendQueued(_) => ReconRank(s.recon)
    case AwaitReady => SignalRank(s)
    case _ => 0
  }

  /** The goroutine that Start is waiting for. */
  function Helper(s: State): Action {
    match s.start.pc
    case WantLock => if s.lk.start.ByAdd? then AddStep(s.lk.start.id) else StartStep
    case SendQueued(n) => if n >= |s.g.queue| || s.recon.Receiving? then StartStep else ReconStep
    case AwaitReady =>
      if s.g.queue == [] then StartStep
      else if s.g.queue[0] !in s.jobs.runners then ReconStep
      else if s.g.queue[0] !in s.jobs.checks then RunnerStep(s.g.queue[0], false)
      else CheckStep(s.g.queue[0], s.jobs.checks[s.g.queue[0]].Checking?)
    case _ => StartStep
  }

  ghost predicate Decreases(s: State, t: State) {
    || Stage(t.start.pc) < Stage(s.start.pc)
    || (Stage(t.start.pc) == Stage(s.start.pc) && Left(t) < Left(s))
    || (Stage(t.start.pc) == Stage(s.start.pc) && Left(t) == Left(s) && Wait(t) < Wait(s))
  }

  // While the body of Start runs, reconcile is stopped by no lock and drops nothing.
  lemma ReconMoves(s: State)
    requires StopInv(s) && WriterInv(s) && ReadInv(s) && !s.start.pc.Finished? && HeldBy(s.recon) != []
    ensures ReconStepOf(s).Next?
    ensures var t := ReconStepOf(s).state;
      && ReconRank(t.recon) < ReconRank(s.recon)
      && t.start == s.start && t.stop == s.stop && t.jobs.checks == s.jobs.checks && t.g.queue == s.g.queue
      && (forall id :: id in t.jobs.runners ==> id in s.jobs.runners || id in HeldBy(s.recon))
      && (forall id :: id in HeldBy(s.recon) ==> id in t.jobs.runners || id in HeldBy(t.recon))
  {
  }

  /** The first runnable of the queue is held by reconcile, or launched and not yet acknowledged. */
  lemma FirstQueued(s: State)
    requires Inv(s) && s.start.pc.AwaitReady?
    ensures s.g.queue[0] in HeldBy(s.recon) || s.g.queue[0] in s.jobs.runners
    ensures s.g.queue[0] in s.jobs.checks ==> !s.jobs.checks[s.g.queue[0]].CheckDone?
    ensures s.g.queue[0] in s.g.signal
    ensures s.g.queue[0] in s.jobs.runners ==>
      (s.g.queue[0] in s.jobs.checks <==> !s.jobs.runners[s.g.queue[0]].SpawnCheck?)
  {
    RemainingMember(s.h.initial, s.h.acked, s.g.queue[0]);
    assert s.g.queue[0] in Handled(s);
  }

  // A step after which Start waits for no check that it did not wait for before.
  ghost predicate NoNewDebt(s: State, t: State) {
    t.stop == s.stop && forall id :: Owed(t, id) ==> Owed(s, id) && (Failed(t, id) ==> Failed(s, id))
  }

  lemma LaunchProgress(s: State)
    requires Inv(s) && s.start.pc.AwaitReady? && s.g.queue[0] !in s.jobs.runners
    ensures Step(s, Helper(s)).Next? && Decreases(s, Step(s, Helper(s)).state)
    ensures NoNewDebt(s, Step(s, Helper(s)).state)
  {
    FirstQueued(s);
    ReconMoves(s);
  }

  lemma RunnerProgress(s: State, id: Id)
    requires RunnerInv(s) && StartInv(s) && s.start.pc.AwaitReady?
    requires s.g.queue != [] && id == s.g.queue[0] && id in s.jobs.runners && id !in s.jobs.checks
    ensures Step(s, Helper(s)).Next? && Decreases(s, Step(s, Helper(s)).state)
    ensures NoNewDebt(s, Step(s, Helper(s)).state)
  {
  }

  lemma CheckProgress(s: State, id: Id)
    requires StartInv(s) && s.start.pc.AwaitReady?
    requires s.g.queue != [] && id == s.g.queue[0] && id in s.jobs.runners && id in s.jobs.checks
    requires id in s.g.signal && (s.jobs.checks[id].Checking? || s.jobs.checks[id].Signalling?)
    ensures Step(s, Helper(s)).Next? && Decreases(s, Step(s, Helper(s)).state)
    ensures NoNewDebt(s, Step(s, Helper(s)).state)
  {
    assert RemoveFirst(s.g.queue, id) == s.g.queue[1..];
  }

  lemma SignalProgress(s: State)
    requires Inv(s) && s.start.pc.AwaitReady? && !Failed(s, s.g.queue[0]) && s.g.queue[0] in s.jobs.runners
    ensures Step(s, Helper(s)).Next? && Decreases(s, Step(s, Helper(s)).state)
    ensures NoNewDebt(s, Step(s, Helper(s)).state)
  {
    FirstQueued(s);
    var id := s.g.queue[0];
    if id in s.jobs.checks {
      CheckProgress(s, id);
    } else {
      RunnerProgress(s, id);
    }
  }

  lemma SendProgress(s: State)
    requires Inv(s) && s.start.pc.SendQueued?
    ensures Step(s, Helper(s)).Next? && Decreases(s, Step(s, Helper(s)).state)
    ensures NoNewDebt(s, Step(s, Helper(s)).state)
  {
    if s.start.pc.next < |s.g.queue| && !s.recon.Receiving? {
      ReconMoves(s);
    }
  }

  lemma LockProgress(s: State)
    requires StartLockInv(s) && StartInv(s) && s.start.pc.WantLock? && s.jobs.checks.Keys == {}
    ensures Step(s, Helper(s)).Next? && Decreases(s, Step(s, Helper(s)).state)
    ensures NoNewDebt(s, Step(s, Helper(s)).state)
  {
    assert Step(s, Helper(s)).state.jobs == s.jobs;
  }

  lemma OtherProgress(s: State)
    requires StartInv(s)
    requires !s.start.pc.SendQueued? && !s.start.pc.AwaitReady? && !s.start.pc.WantLock?
    requires !s.start.pc.NotEntered? && !s.start.pc.Finished?
    ensures Step(s, Helper(s)).Next? && Decreases(s, Step(s, Helper(s)).state)
    ensures NoNewDebt(s, Step(s, Helper(s)).state)
  {
    var t := Step(s, Helper(s)).state;
    assert t.jobs == s.jobs && t.g.queue == s.g.queue && t.adds == s.adds && t.stop == s.stop;
    assert s.g.started ==> t.g.started;
  }

  lemma StartProgress(s: State) returns (t: State)
    requires Inv(s) && !s.start.pc.NotEntered? && !s.start.pc.Finished?
    requires s.start.pc.AwaitReady? ==> !Failed(s, s.g.queue[0])
    ensures Step(s, Helper(s)) == Next(t) && Decreases(s, t) && NoNewDebt(s, t)
  {
    if s.start.pc.SendQueued? {
      SendProgress(s);
    } else if s.start.pc.AwaitReady? {
      if s.g.queue[0] in s.jobs.runners {
        SignalProgress(s);
      } else {
        LaunchProgress(s);
      }
    } else if s.start.pc.WantLock? {
      NothingChecked(s);
      LockProgress(s);
    } else {
      OtherProgress(s);
    }
    t := Step(s, Helper(s)).state;
  }

  /** The only checks that help Start to its end are those it waits for. */
  lemma HelperSpares(s: State, silent: iset<Id>)
    requires StartInv(s) && !Stuck(s, silent)
    ensures Gentle([Helper(s)], silent)
  {
    if Helper(s).CheckStep? && Helper(s).ready {
      assert Owed(s, Helper(s).id);
    }
  }

  lemma FirstNotFailed(s: State, silent: iset<Id>)
    requires StartInv(s) && !Stuck(s, silent)
    ensures s.start.pc.AwaitReady? ==> !Failed(s, s.g.queue[0])
  {
    if s.start.pc.AwaitReady? && Failed(s, s.g.queue[0]) {
      assert Owed(s, s.g.queue[0]);
    }
  }

  lemma OneMoreSpared(s: State, a: Action, u: State, rest: seq<Action>, t: State, silent: iset<Id>)
      returns (run: seq<Action>)
    requires Step(s, a) == Next(u) && Exec(u, rest) == Next(t) && Gentle([a], silent) && Gentle(rest, silent)
    ensures Exec(s, run) == Next(t) && Gentle(run, silent)
  {
    ExecOne(s, a, rest);
    run := [a] + rest;
  }

  lemma StartAdvances(s: State, silent: iset<Id>) returns (u: State)
    requires Reachable(s) && !s.start.pc.NotEntered? && !s.start.pc.Finished? && !Stuck(s, silent)
    ensures Step(s, Helper(s)) == Next(u) && Reachable(u) && Decreases(s, u) && u.stop == s.stop
    ensures !u.start.pc.NotEntered? && !Stuck(u, silent) && Gentle([Helper(s)], silent)
  {
    ReachableInv(s);
    FirstNotFailed(s, silent);
    u := StartProgress(s);
    HelperSpares(s, silent);
    StepReachable(s, Helper(s));
  }

  /** From every state in which Start has been entered and is not stuck, the goroutines that it waits for can
      take it to its end, with no true return of a Check but those that are owed. */
  lemma StartFinishes(s: State, silent: iset<Id>) returns (run: seq<Action>, t: State)
    requires Reachable(s) && !s.start.pc.NotEntered? && !Stuck(s, silent)
    ensures Exec(s, run) == Next(t) && Reachable(t) && t.start.pc.Finished? && t.stop == s.stop && Gentle(run, silent)
    decreases Stage(s.start.pc), Left(s), Wait(s)
  {
    if s.start.pc.Finished? {
      run, t := [], s;
    } else {
      var u := StartAdvances(s, silent);
      run, t := StartFinishes(u, silent);
      run := OneMoreSpared(s, Helper(s), u, run, t, silent);
    }
  }

  /** Let silent be the runnables whose Check never returns true from now on. A Start that has been entered
      can still return if and only if it waits for none of them, nor for one whose Check has returned false:
      all it needs is that every Check it waits for returns true. */
  lemma StartCanFinishIff(s: State, silent: iset<Id>)
    requires Reachable(s) && !s.start.pc.NotEntered?
    ensures (exists run :: Exec(s, run).Next? && Exec(s, run).state.start.pc.Finished? && Spares(run, silent)) <==>
      !Stuck(s, silent)
  {
    ReachableInv(s);
    if Stuck(s, silent) {
      forall run | Exec(s, run).Next? && Spares(run, silent)
        ensures !Exec(s, run).state.start.pc.Finished?
      {
        StuckBlocks(s, silent, run);
      }
    } else {
      var run, t := StartFinishes(s, silent);
    }
  }

  // ----- StopAndWait -----

  lemma StuckIgnoresStop(s: State, u: State, silent: iset<Id>)
    requires u == s.(stop := u.stop)
    ensures Stuck(u, silent) ==> Stuck(s, silent)
  {
    if Stuck(u, silent) {
      var id :| Owed(u, id) && (id in silent || Failed(u, id));
      assert Owed(s, id);
    }
  }

  predicate NoChecks(run: seq<Action>) {
    forall a :: a in run ==> Own(a) && !a.CheckStep?
  }

  // The Adds in t that read stopped before it is set are those in s, and past their check.
  ghost predicate ReadersPass(s: State, t: State) {
    forall id :: id in s.adds && (s.adds[id].ReadStopped? || InWindow(s.adds[id])) ==>
      id in t.adds && (t.adds[id].ReadStopped? || InWindow(t.adds[id]))
  }

  // r.stop is wanted for writing: no new reader enters, and each reader can leave.
  lemma AddReaderMoves(s: State, id: Id) returns (t: State)
    requires Reachable(s) && s.stop.pc.AwaitReaders? && AddReader(id) in s.lk.readers
    ensures Step(s, AddStep(id)) == Next(t) && Reachable(t) && t.stop == s.stop && ReadersPass(s, t)
    ensures id in s.adds && id in t.adds && (s.adds[id].ReadStopped? ==> t.adds[id].AcceptUnlock?)
    ensures t.lk.readers == if s.adds[id].ReadStopped? then s.lk.readers else s.lk.readers - {AddReader(id)}
  {
    ReachableInv(s);
    t := AddReaderStep(s, id);
    StepReachable(s, AddStep(id));
  }

  lemma AddReaderStep(s: State, id: Id) returns (t: State)
    requires ReaderInv(s) && ReadInv(s) && StopInv(s) && s.stop.pc.AwaitReaders? && AddReader(id) in s.lk.readers
    ensures id in s.adds && id in t.adds && AddStepOf(s, id) == Next(t) && t.stop == s.stop && ReadersPass(s, t)
    ensures s.adds[id].ReadStopped? ==> t.adds[id].AcceptUnlock?
    ensures t.lk.readers == if s.adds[id].ReadStopped? then s.lk.readers else s.lk.readers - {AddReader(id)}
  {
    t := AddStepOf(s, id).state;
  }

  lemma OneMore(s: State, a: Action, u: State, rest: seq<Action>, t: State) returns (run: seq<Action>)
    requires Step(s, a) == Next(u) && Exec(u, rest) == Next(t) && Own(a) && !a.CheckStep? && NoChecks(rest)
    ensures run == [a] + rest && Exec(s, run) == Next(t) && NoChecks(run)
  {
    ExecOne(s, a, rest);
    run := [a] + rest;
  }

  lemma AddReaderUnlocks(s: State, id: Id) returns (run: seq<Action>, t: State)
    requires Reachable(s) && s.stop.pc.AwaitReaders? && AddReader(id) in s.lk.readers
    requires id in s.adds && !s.adds[id].ReadStopped?
    ensures Exec(s, run) == Next(t) && NoChecks(run) && ReadersPass(s, t)
    ensures Reachable(t) && t.stop == s.stop && t.lk.readers == s.lk.readers - {AddReader(id)}
  {
    t := AddReaderMoves(s, id);
    run := OneMore(s, AddStep(id), t, [], t);
  }

  lemma AddReaderLeaves(s: State, id: Id) returns (run: seq<Action>, t: State)
    requires Reachable(s) && s.stop.pc.AwaitReaders? && AddReader(id) in s.lk.readers
    ensures Exec(s, run) == Next(t) && NoChecks(run) && ReadersPass(s, t)
    ensures Reachable(t) && t.stop == s.stop && t.lk.readers == s.lk.readers - {AddReader(id)}
  {
    var u := AddReaderMoves(s, id);
    if s.adds[id].ReadStopped? {
      var rest;
      rest, t := AddReaderUnlocks(u, id);
      run := OneMore(s, AddStep(id), u, rest, t);
    } else {
      run, t := AddReaderUnlocks(s, id);
    }
  }

  lemma ReconReaderMoves(s: State) returns (t: State)
    requires Reachable(s) && s.stop.pc.AwaitReaders? && ReconHoldsStop(s.recon)
    ensures Step(s, ReconStep) == Next(t) && Reachable(t)
    ensures t.stop == s.stop && t.adds == s.adds && ReconRank(t.recon) < ReconRank(s.recon)
    ensures if s.recon.Admitted? then t.lk.readers == s.lk.readers - {ReconReader}
            else t.lk.readers == s.lk.readers && ReconHoldsStop(t.recon)
  {
    ReachableInv(s);
    t := ReconReaderStep(s);
    StepReachable(s, ReconStep);
  }

  lemma ReconReaderStep(s: State) returns (t: State)
    requires StopInv(s) && ReadInv(s) && s.stop.pc.AwaitReaders? && ReconHoldsStop(s.recon)
    ensures ReconStepOf(s) == Next(t)
    ensures t.stop == s.stop && t.adds == s.adds && ReconRank(t.recon) < ReconRank(s.recon)
    ensures if s.recon.Admitted? then t.lk.readers == s.lk.readers - {ReconReader}
            else t.lk.readers == s.lk.readers && ReconHoldsStop(t.recon)
  {
    t := ReconStepOf(s).state;
  }

  lemma ReconReaderLeaves(s: State) returns (run: seq<Action>, t: State)
    requires Reachable(s) && s.stop.pc.AwaitReaders? && ReconHoldsStop(s.recon)
    ensures Exec(s, run) == Next(t) && NoChecks(run)
    ensures Reachable(t) && t.stop == s.stop && t.lk.readers == s.lk.readers - {ReconReader} && t.adds == s.adds
    decreases ReconRank(s.recon)
  {
    var u := ReconReaderMoves(s);
    run, t := [], u;
    if !s.recon.Admitted? {
      run, t := ReconReaderLeaves(u);
    }
    run := OneMore(s, ReconStep, u, run, t);
  }

  lemma ReconIsReader(s: State)
    requires Reachable(s) && ReconReader in s.lk.readers
    ensures ReconHoldsStop(s.recon)
  {
    ReachableInv(s);
  }

  lemma OneReaderLeaves(s: State) returns (run: seq<Action>, t: State)
    requires Reachable(s) && s.stop.pc.AwaitReaders? && s.lk.readers != {}
    ensures Exec(s, run) == Next(t) && NoChecks(run) && ReadersPass(s, t)
    ensures Reachable(t) && t.stop == s.stop && t.lk.readers < s.lk.readers
  {
    var r :| r in s.lk.readers;
    if r.ReconReader? {
      ReconIsReader(s);
      run, t := ReconReaderLeaves(s);
    } else {
      run, t := AddReaderLeaves(s, r.id);
    }
  }

  lemma ReadersLeave(s: State) returns (run: seq<Action>, t: State)
    requires Reachable(s) && s.stop.pc.AwaitReaders?
    ensures Exec(s, run) == Next(t) && NoChecks(run) && ReadersPass(s, t)
    ensures Reachable(t) && t.stop == s.stop && t.lk.readers == {}
    decreases |s.lk.readers|
  {
    run, t := [], s;
    if s.lk.readers != {} {
      var first, u := OneReaderLeaves(s);
      SmallerSet(u.lk.readers, s.lk.readers);
      run, t := ReadersLeave(u);
      ExecConcat(s, first, run);
      run := first + run;
    }
  }

  lemma SmallerSet<T>(a: set<T>, b: set<T>)
    requires a < b
    ensures |a| < |b|
  {
    assert |b| == |a| + |b - a| by {
      assert b == a + (b - a);
    }
  }

  function RunnerRank(pc: RunnerPc): nat {
    match pc
    case SpawnCheck => 4
    case Running => 3
    case SendErr => 2
    case WgDone => 1
    case RunnerExited => 0
  }

  function RunnerAction(s: State, id: Id): Action
    requires id in s.jobs.runners
  {
    if s.jobs.runners[id].SendErr? then DrainRunner(id) else RunnerStep(id, false)
  }

  lemma RunnerMoves(s: State, id: Id) returns (t: State)
    requires Reachable(s) && id in LiveRunners(s.jobs.runners)
    ensures Step(s, RunnerAction(s, id)) == Next(t) && Reachable(t)
    ensures t.stop == s.stop && t.recon == s.recon && id in t.jobs.runners
    ensures RunnerRank(t.jobs.runners[id]) < RunnerRank(s.jobs.runners[id])
    ensures s.g.wg > 0 && t.g.wg == s.g.wg - if s.jobs.runners[id].WgDone? then 1 else 0
    ensures t.jobs.runners[id].RunnerExited? <==> s.jobs.runners[id].WgDone?
  {
    ReachableInv(s);
    assert LiveRunners(s.jobs.runners) != {};
    t := RunnerStepped(s, id);
    StepReachable(s, RunnerAction(s, id));
  }

  lemma RunnerStepped(s: State, id: Id) returns (t: State)
    requires id in LiveRunners(s.jobs.runners) && s.g.wg > 0
    ensures Step(s, RunnerAction(s, id)) == Next(t)
    ensures t.stop == s.stop && t.recon == s.recon && id in t.jobs.runners
    ensures RunnerRank(t.jobs.runners[id]) < RunnerRank(s.jobs.runners[id])
    ensures t.g.wg == s.g.wg - if s.jobs.runners[id].WgDone? then 1 else 0
    ensures t.jobs.runners[id].RunnerExited? <==> s.jobs.runners[id].WgDone?
  {
    t := Step(s, RunnerAction(s, id)).state;
  }

  lemma RunnerActionIsOwn(s: State, id: Id)
    requires id in s.jobs.runners
    ensures Own(RunnerAction(s, id)) && !RunnerAction(s, id).CheckStep?
  {
  }

  /** A live runner whose Start returns, and whose error is received, calls wg.Done. */
  lemma RunnerEnds(s: State, id: Id) returns (run: seq<Action>, t: State)
    requires Reachable(s) && id in LiveRunners(s.jobs.runners)
    ensures Exec(s, run) == Next(t) && NoChecks(run)
    ensures Reachable(t) && t.stop == s.stop && t.recon == s.recon && s.g.wg > 0 && t.g.wg == s.g.wg - 1
    decreases RunnerRank(s.jobs.runners[id])
  {
    var u := RunnerMoves(s, id);
    run, t := [], u;
    if !s.jobs.runners[id].WgDone? {
      run, t := RunnerEnds(u, id);
    }
    RunnerActionIsOwn(s, id);
    run := OneMore(s, RunnerAction(s, id), u, run, t);
  }

  // With stopped set, what is left of the WaitGroup is one runnable that reconcile may be about to launch,
  // and the live runners.
  lemma SomeRunnerLives(s: State) returns (id: Id)
    requires Reachable(s) && s.stop.pc.Select? && s.g.wg > 0 && !s.recon.Spawning?
    ensures id in LiveRunners(s.jobs.runners)
  {
    ReachableInv(s);
    id :| id in LiveRunners(s.jobs.runners);
  }

  lemma LastLaunch(s: State) returns (run: seq<Action>, t: State)
    requires Reachable(s) && s.recon.Spawning?
    ensures Exec(s, run) == Next(t) && Reachable(t) && t.stop == s.stop && NoChecks(run)
    ensures t.g.wg == s.g.wg && ReconRank(t.recon) < ReconRank(s.recon)
  {
    t := Step(s, ReconStep).state;
    StepReachable(s, ReconStep);
    run := OneMore(s, ReconStep, t, [], t);
  }

  lemma OneRunnerEnds(s: State) returns (run: seq<Action>, t: State)
    requires Reachable(s) && s.stop.pc.Select? && s.g.wg > 0
    ensures Exec(s, run) == Next(t) && Reachable(t) && t.stop == s.stop && NoChecks(run)
    ensures t.g.wg < s.g.wg || (t.g.wg == s.g.wg && ReconRank(t.recon) < ReconRank(s.recon))
  {
    if s.recon.Spawning? {
      run, t := LastLaunch(s);
    } else {
      var id := SomeRunnerLives(s);
      run, t := RunnerEnds(s, id);
    }
  }

  lemma RunnersEnd(s: State) returns (run: seq<Action>, t: State)
    requires Reachable(s) && s.stop.pc.Select?
    ensures Exec(s, run) == Next(t) && Reachable(t) && t.stop == s.stop && t.g.wg == 0 && NoChecks(run)
    decreases s.g.wg, ReconRank(s.recon)
  {
    run, t := [], s;
    if s.g.wg > 0 {
      var first, u := OneRunnerEnds(s);
      run, t := RunnersEnd(u);
      ExecConcat(s, first, run);
      run := first + run;
    }
  }

  function StopStage(st: Stopping): nat {
    match st.pc
    case StopNotEntered => 13
    case CallingStart => 12
    case WantWLock => 11
    case AwaitReaders => 10
    case SetStopped => 9
    case WUnlock => 8
    case CancelCtx => 7
    case SpawnWaiter => 6
    case Select => if st.waiter.WaitReturned? then 4 else 5
    case CloseCh(_) => 1
    case StopFinished(_) => 0
  }

  predicate LeftByCtx(pc: StopPc) { pc == CloseCh(false) || pc == StopFinished(false) }

  function StopAction(s: State): Action {
    if s.stop.pc.Select? && s.stop.waiter.Waiting? then WaiterStep else StopStep
  }

  // Nothing that the body of StopAndWait waits for is missing.
  ghost predicate StopUnblocked(s: State) {
    && s.start.pc.Finished? && !s.stop.pc.StopNotEntered? && !s.stop.pc.StopFinished?
    && (s.stop.pc.AwaitReaders? ==> s.lk.readers == {})
    && (s.stop.pc.Select? && s.stop.waiter.Waiting? ==> s.g.wg == 0)
  }

  lemma StopActionIsOwn(s: State)
    ensures Own(StopAction(s)) && !StopAction(s).CheckStep?
  {
  }

  lemma StopMoves(s: State) returns (t: State)
    requires Reachable(s) && StopUnblocked(s)
    ensures Step(s, StopAction(s)) == Next(t) && Reachable(t) && t.start == s.start
    ensures StopStage(t.stop) < StopStage(s.stop) && (LeftByCtx(t.stop.pc) ==> LeftByCtx(s.stop.pc))
  {
    ReachableInv(s);
    t := StopMoved(s);
    StepReachable(s, StopAction(s));
  }

  lemma StopMoved(s: State) returns (t: State)
    requires StopInv(s) && StopUnblocked(s)
    ensures Step(s, StopAction(s)) == Next(t) && t.start == s.start
    ensures StopStage(t.stop) < StopStage(s.stop) && (LeftByCtx(t.stop.pc) ==> LeftByCtx(s.stop.pc))
  {
    t := Step(s, StopAction(s)).state;
  }

  lemma StartIsOver(s: State)
    requires Reachable(s) && !s.stop.pc.StopNotEntered? && !s.stop.pc.CallingStart?
    ensures s.start.pc.Finished?
  {
    ReachableInv(s);
  }

  lemma StopUnblocks(s: State) returns (run: seq<Action>, t: State)
    requires Reachable(s) && s.start.pc.Finished? && !s.stop.pc.StopNotEntered? && !s.stop.pc.StopFinished?
    ensures Exec(s, run) == Next(t) && NoChecks(run)
    ensures Reachable(t) && t.stop == s.stop && StopUnblocked(t)
  {
    run, t := [], s;
    if s.stop.pc.AwaitReaders? {
      run, t := ReadersLeave(s);
      StartIsOver(t);
    } else if s.stop.pc.Select? && s.stop.waiter.Waiting? {
      run, t := RunnersEnd(s);
      StartIsOver(t);
    }
  }

  lemma StopAdvances(s: State) returns (run: seq<Action>, t: State)
    requires Reachable(s) && s.start.pc.Finished? && !s.stop.pc.StopNotEntered? && !s.stop.pc.StopFinished?
    ensures Exec(s, run) == Next(t) && Reachable(t) && t.start.pc.Finished? && NoChecks(run)
    ensures StopStage(t.stop) < StopStage(s.stop) && (LeftByCtx(t.stop.pc) ==> LeftByCtx(s.stop.pc))
  {
    var first, u := StopUnblocks(s);
    t := StopMoves(u);
    StopActionIsOwn(u);
    var last := OneMore(u, StopAction(u), t, [], t);
    ExecConcat(s, first, last);
    run := first + last;
  }

  lemma StopFinishes(s: State) returns (run: seq<Action>, t: State)
    requires Reachable(s) && s.start.pc.Finished? && StopStage(s.stop) <= 12
    ensures Exec(s, run) == Next(t) && StopStage(t.stop) == 0 && (LeftByCtx(t.stop.pc) ==> LeftByCtx(s.stop.pc))
    ensures NoChecks(run)
    decreases StopStage(s.stop)
  {
    if StopStage(s.stop) == 0 {
      run, t := [], s;
    } else {
      var first, u := StopAdvances(s);
      var rest;
      rest, t := StopFinishes(u);
      ExecConcat(s, first, rest);
      run := first + rest;
    }
  }

  lemma StopCallsStart(s: State) returns (run: seq<Action>, t: State)
    requires Reachable(s) && !s.stop.pc.StopNotEntered?
    ensures Exec(s, run) == Next(t) && Reachable(t) && !t.start.pc.NotEntered? && NoNewDebt(s, t) && NoChecks(run)
  {
    run, t := [], s;
    if s.start.pc.NotEntered? {
      if !s.stop.pc.CallingStart? {
        StartIsOver(s);
      }
      t := Step(s, StopStep).state;
      StepReachable(s, StopStep);
      run := OneMore(s, StopStep, t, [], t);
    }
  }

  /** StopAndWait gets past its call of Start. */
  lemma StopPassesStart(s: State, silent: iset<Id>) returns (run: seq<Action>, t: State)
    requires Reachable(s) && !s.stop.pc.StopNotEntered? && !Stuck(s, silent)
    ensures Exec(s, run) == Next(t) && Reachable(t) && t.start.pc.Finished? && t.stop == s.stop && Gentle(run, silent)
  {
    var first, u := StopCallsStart(s);
    var second;
    second, t := StartFinishes(u, silent);
    ExecConcat(s, first, second);
    run := first + second;
  }

  lemma Staged(st: Stopping)
    ensures StopStage(st) <= 12 <==> !st.pc.StopNotEntered?
    ensures StopStage(st) == 0 <==> st.pc.StopFinished?
  {
  }

  lemma StopCanFinish(s: State, silent: iset<Id>) returns (run: seq<Action>, t: State)
    requires Reachable(s) && !s.stop.pc.StopNotEntered? && !Stuck(s, silent)
    ensures Exec(s, run) == Next(t) && t.stop.pc.StopFinished? && Gentle(run, silent)
    ensures LeftByCtx(t.stop.pc) ==> LeftByCtx(s.stop.pc)
  {
    var first, u := StopPassesStart(s, silent);
    var second;
    Staged(s.stop);
    second, t := StopFinishes(u);
    Staged(t.stop);
    ExecConcat(s, first, second);
    run := first + second;
  }

  /** A StopAndWait that has been entered can still return on the same condition, whatever its context does:
      no Check that Start waits for has returned false or never returns true. */
  lemma StopCanFinishIff(s: State, silent: iset<Id>)
    requires Reachable(s) && !s.stop.pc.StopNotEntered?
    ensures (exists run :: Exec(s, run).Next? && Exec(s, run).state.stop.pc.StopFinished? && Spares(run, silent)) <==>
      !Stuck(s, silent)
  {
    ReachableInv(s);
    if Stuck(s, silent) {
      forall run | Exec(s, run).Next? && Spares(run, silent)
        ensures !Exec(s, run).state.stop.pc.StopFinished?
      {
        StuckBlocks(s, silent, run);
      }
    } else {
      var run, t := StopCanFinish(s, silent);
      assert Exec(s, run) == Next(t);
    }
  }

  /** It can then return through done, unless it already left its select through the expired context. */
  lemma StopCanFinishThroughDone(s: State, silent: iset<Id>)
    requires Reachable(s) && !s.stop.pc.StopNotEntered? && !Stuck(s, silent) && !LeftByCtx(s.stop.pc)
    ensures exists run ::
      Exec(s, run).Next? && Exec(s, run).state.stop.pc == StopFinished(true) && Spares(run, silent)
  {
    ReachableInv(s);
    var run, t := StopCanFinish(s, silent);
    assert Exec(s, run) == Next(t);
  }
}
