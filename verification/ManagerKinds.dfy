/** What becomes of a task by its kind, from the runs of the manager alone: which tasks are launched before
    which, which are cancelled before which, and what it takes for the manager to be ready. */
module ManagerKinds {
  import opened Wrappers
  import G = Group
  import opened GroupInvariant
  import opened GroupSafety
  import opened Manager
  import opened GroupProgress
  import opened ManagerProgress

  // Every task has an id of its own.
  predicate UniqueIds(run: seq<Action>) {
    forall i, j :: 0 <= i < j < |run| && run[i].AddTask? && run[j].AddTask? ==> run[i].id != run[j].id
  }

  lemma {:induction false} SplitLast(m: State, run: seq<Action>, n: State) returns (u: State)
    requires run != [] && Exec(m, run) == Some(n)
    ensures Exec(m, run[..|run| - 1]) == Some(u) && Step(u, run[|run| - 1]) == Some(n)
    decreases |run|
  {
    if |run| == 1 {
      u := m;
    } else {
      u := SplitLast(Step(m, run[0]).value, run[1..], n);
      assert run[..|run| - 1][1..] == run[1..][..|run| - 2];
    }
  }

  // ----- where the tasks are -----

  // The informers and the event pump are kept apart from the BPF runners.
  predicate Watches(kind: Kind) { kind.Cache? || kind.EventPump? }

  /** After this run every task is where its kind belongs, and nothing else is anywhere. */
  ghost predicate Homes(run: seq<Action>, m: State) {
    && (forall id :: id in m.caches.adds <==> AddTask(Cache, id) in run || AddTask(EventPump, id) in run)
    && (forall id :: id in m.bpf.adds <==> AddTask(BpfRunner, id) in run)
    && (forall id :: id !in m.pumps.adds)
  }

  lemma AddsMove(s: G.State, a: G.Action, t: G.State)
    requires G.Step(s, a) == G.Next(t)
    ensures t.adds.Keys == s.adds.Keys + if a.AddCall? then {a.id} else {}
  {
    match a
    case AddStep(_) =>
    case StartStep =>
    case _ =>
  }

  lemma InnerHomes(run: seq<Action>, m: State, g: GroupName, b: G.Action, a: Action)
    requires Homes(run, m) && Within(m, g, b).Some? && !b.AddCall? && !a.AddTask?
    ensures Homes(run + [a], Within(m, g, b).value)
  {
    AddsMove(Get(m, g), b, G.Step(Get(m, g), b).state);
    assert forall k, id :: AddTask(k, id) in run + [a] <==> AddTask(k, id) in run;
  }

  lemma StepHomes(run: seq<Action>, m: State, a: Action, n: State)
    requires Homes(run, m) && Step(m, a) == Some(n)
    ensures Homes(run + [a], n)
  {
    assert !a.AddTask? ==> forall k, id :: AddTask(k, id) in run + [a] <==> AddTask(k, id) in run;
    match a
    case AddTask(kind, id) =>
    case InGroup(g, b) => InnerHomes(run, m, g, b, a);
    case MainStep => if m.main.CallStart? { InnerHomes(run, m, m.main.g, G.StartCall(0), a); }
    case StopperStep => if m.stopper.CallStop? { InnerHomes(run, m, m.stopper.g, G.StopCall(0), a); }
    case _ =>
  }

  lemma {:induction false} RunHomes(run: seq<Action>, m: State)
    requires Exec(INIT, run) == Some(m)
    ensures Homes(run, m)
    decreases |run|
  {
    if run != [] {
      var most := run[..|run| - 1];
      var u := SplitLast(INIT, run, m);
      RunHomes(most, u);
      StepHomes(most, u, run[|run| - 1], m);
      assert run == most + [run[|run| - 1]];
    }
  }

  lemma KindIsUnique(run: seq<Action>, k: Kind, l: Kind, id: G.Id)
    requires UniqueIds(run) && AddTask(k, id) in run && AddTask(l, id) in run
    ensures k == l
  {
    var i :| 0 <= i < |run| && run[i] == AddTask(k, id);
    var j :| 0 <= j < |run| && run[j] == AddTask(l, id);
  }

  // ----- before the starts -----

  predicate Idle(s: G.State) {
    s.start.pc.NotEntered? && s.stop.pc.StopNotEntered? && s.start.calls.Keys == {} && s.stop.calls.Keys == {}
  }

  /** Until the manager calls its first Start nothing has been started or stopped. */
  ghost predicate IdleInv(m: State) {
    m.main == CallStart(Pumps) ==> Idle(m.caches) && Idle(m.bpf) && Idle(m.pumps)
  }

  lemma IdleMoves(s: G.State, a: G.Action, t: G.State)
    requires G.Reachable(s) && Idle(s) && G.Step(s, a) == G.Next(t) && !a.StartCall? && !a.StopCall?
    ensures Idle(t)
  {
    StepsInFrame(s, a, t);
  }

  lemma StillIdle(m: State, a: Action, n: State)
    requires ShutdownInv(m) && Step(m, a) == Some(n) && n.main == CallStart(Pumps)
    ensures m.main == CallStart(Pumps) && !a.MainStep? && !a.StopperStep?
  {
  }

  lemma GroupStaysIdle(m: State, a: Action, n: State, g: GroupName)
    requires ManagerInv(m) && Step(m, a) == Some(n) && n.main == CallStart(Pumps) && Idle(Get(m, g))
    ensures Idle(Get(n, g))
  {
    StillIdle(m, a, n);
    var b := GroupMoves(m, a, n, g);
    if b.Some? {
      IdleMoves(Get(m, g), b.value, Get(n, g));
    }
  }

  lemma IdleKept(m: State, a: Action, n: State)
    requires ManagerInv(m) && IdleInv(m) && Step(m, a) == Some(n)
    ensures IdleInv(n)
  {
    if n.main == CallStart(Pumps) {
      StillIdle(m, a, n);
      GroupStaysIdle(m, a, n, Caches);
      GroupStaysIdle(m, a, n, BpfPrograms);
      GroupStaysIdle(m, a, n, Pumps);
    }
  }

  lemma {:induction false} RunIdle(run: seq<Action>, m: State)
    requires Exec(INIT, run) == Some(m)
    ensures IdleInv(m)
    decreases |run|
  {
    if run != [] {
      var most := run[..|run| - 1];
      var u := SplitLast(INIT, run, m);
      RunIdle(most, u);
      ReachableManagerInv(u);
      IdleKept(u, run[|run| - 1], m);
    }
  }

  // ----- a task added before the starts -----

  // Queued before the sending loop of Start, or in the queue that the loop found.
  predicate Booked(s: G.State, id: G.Id) {
    if BeforeSends(s.start.pc) then id in s.g.queue else id in s.h.initial
  }

  lemma DeliveredIsBooked(s: G.State, id: G.Id)
    requires FlowInv(s) && OrderInv(s) && ReadInv(s) && StopInv(s) && Idle(s)
    requires id in s.adds && s.adds[id].ReturnedNil?
    ensures Booked(s, id)
  {
    assert Bag(PipeOf(s))[id] == 1;
    assert Handled(s) == [] && s.h.launched == [] && HeldBy(s.recon) == [] && s.h.dropped == [];
    assert multiset(s.g.queue)[id] == 1;
  }

  lemma BookedStays(s: G.State, a: G.Action, t: G.State, id: G.Id)
    requires Inv(s) && Booked(s, id) && G.Step(s, a) == G.Next(t)
    ensures Booked(t, id)
  {
    if BeforeSends(s.start.pc) {
      NothingChecked(s);
      QueueGrows(s, a);
      SendsBegin(s, a, t);
    } else {
      InitialStays(s, a, t);
    }
  }

  lemma SendsBegin(s: G.State, a: G.Action, t: G.State)
    requires StartInv(s) && BeforeSends(s.start.pc) && s.jobs.checks.Keys == {} && G.Step(s, a) == G.Next(t)
    ensures BeforeSends(t.start.pc) || (s.start.pc.SetStarted? && a.StartStep?)
  {
    match a
    case StartStep =>
    case StopStep =>
    case CheckStep(_, _) =>
    case _ =>
  }

  lemma InitialStays(s: G.State, a: G.Action, t: G.State)
    requires StartInv(s) && !BeforeSends(s.start.pc) && G.Step(s, a) == G.Next(t)
    ensures t.h.initial == s.h.initial && !BeforeSends(t.start.pc)
  {
    match a
    case StartStep =>
    case StopStep =>
    case CheckStep(_, _) =>
    case _ =>
  }

  lemma {:induction false} BookedForGood(m: State, run: seq<Action>, n: State, g: GroupName, id: G.Id)
    requires ManagerInv(m) && Booked(Get(m, g), id) && Exec(m, run) == Some(n)
    ensures Booked(Get(n, g), id)
    decreases |run|
  {
    if run != [] {
      var u := Step(m, run[0]).value;
      var b := GroupMoves(m, run[0], u, g);
      if b.Some? {
        ReachableInv(Get(m, g));
        BookedStays(Get(m, g), b.value, Get(u, g), id);
      }
      StepKeepsManagerInv(m, run[0], u);
      BookedForGood(u, run[1..], n, g, id);
    }
  }

  // ----- the order of launches -----

  // The Add of the task has returned nil, in whichever group.
  ghost predicate AddedIn(m: State, id: G.Id) {
    exists g: GroupName :: id in Get(m, g).adds && Get(m, g).adds[id].ReturnedNil?
  }

  ghost predicate LaunchedIn(m: State, id: G.Id) {
    exists g: GroupName :: id in Get(m, g).h.launched
  }

  // Its Check has returned true and Start has received its signal.
  ghost predicate FoundReady(m: State, id: G.Id) {
    exists g: GroupName :: id in Get(m, g).h.acked
  }

  lemma LaunchedWasAdded(s: G.State, id: G.Id)
    requires G.Reachable(s) && id in s.h.launched
    ensures id in s.adds && !s.start.pc.NotEntered?
  {
    ReachableInv(s);
    LaunchedAtMostOnce(s);
  }

  /** What is launched in the caches comes after all that was booked in the BPF programs. */
  lemma CachesAfterBooked(m: State, b: G.Id)
    requires Reachable(m) && !ShuttingDown(m.main) && !m.caches.start.pc.NotEntered? && Booked(m.bpf, b)
    ensures b in m.bpf.h.launched && b in m.bpf.h.acked
  {
    CachesStartLast(m);
  }

  /** A BPF runner added before the manager calls its first Start is launched and found ready, in whichever
      group, before any informer or event pump is launched, in whichever group, as long as no shutdown has
      begun. */
  lemma RunnersBeforeInformers(before: seq<Action>, u: State, after: seq<Action>, m: State,
                               kind: Kind, c: G.Id, b: G.Id)
    requires Exec(INIT, before) == Some(u) && u.main == CallStart(Pumps) && AddedIn(u, b)
    requires Exec(u, after) == Some(m) && !ShuttingDown(m.main) && UniqueIds(before + after)
    requires AddTask(BpfRunner, b) in before + after
    requires Watches(kind) && AddTask(kind, c) in before + after && LaunchedIn(m, c)
    ensures LaunchedIn(m, b) && FoundReady(m, b)
  {
    var run := before + after;
    ExecConcat(INIT, before, after);
    RunHomes(run, m);
    ReachableManagerInv(m);
    var g: GroupName :| c in Get(m, g).h.launched;
    LaunchedWasAdded(Get(m, g), c);
    WatchesAreCaches(run, m, kind, c, g);
    BookedAtStart(before, u, after, b);
    ReachableManagerInv(u);
    BookedForGood(u, after, m, BpfPrograms, b);
    CachesAfterBooked(m, b);
    assert b in Get(m, BpfPrograms).h.launched && b in Get(m, BpfPrograms).h.acked;
  }

  lemma WatchesAreCaches(run: seq<Action>, m: State, kind: Kind, id: G.Id, g: GroupName)
    requires Homes(run, m) && UniqueIds(run) && Watches(kind) && AddTask(kind, id) in run && id in Get(m, g).adds
    ensures g == Caches
  {
    if g.BpfPrograms? {
      KindIsUnique(run, kind, BpfRunner, id);
    }
  }

  lemma RunnersAreBpf(run: seq<Action>, m: State, id: G.Id, g: GroupName)
    requires Homes(run, m) && UniqueIds(run) && AddTask(BpfRunner, id) in run && id in Get(m, g).adds
    ensures g == BpfPrograms
  {
    if g.Caches? {
      var k := if AddTask(Cache, id) in run then Cache else EventPump;
      KindIsUnique(run, k, BpfRunner, id);
    }
  }

  lemma BookedAtStart(before: seq<Action>, u: State, after: seq<Action>, b: G.Id)
    requires Exec(INIT, before) == Some(u) && u.main == CallStart(Pumps) && AddedIn(u, b)
    requires UniqueIds(before + after) && AddTask(BpfRunner, b) in before + after
    ensures Booked(u.bpf, b)
  {
    var g: GroupName :| b in Get(u, g).adds && Get(u, g).adds[b].ReturnedNil?;
    RunHomes(before, u);
    RunIdle(before, u);
    ReachableManagerInv(u);
    if g.Caches? {
      var k := if AddTask(Cache, b) in before then Cache else EventPump;
      assert AddTask(k, b) in before + after;
      KindIsUnique(before + after, k, BpfRunner, b);
    }
    ReachableInv(u.bpf);
    DeliveredIsBooked(u.bpf, b);
  }

  // ----- the order of stops -----

  // The context that the task is given is cancelled, in whichever group it is.
  ghost predicate CancelledIn(m: State, id: G.Id) {
    exists g: GroupName :: id in Get(m, g).adds && Get(m, g).g.cancelled
  }

  ghost predicate StoppedIn(m: State, id: G.Id) {
    exists g: GroupName :: id in Get(m, g).adds && Get(m, g).stop.pc.StopFinished?
  }

  /** No BPF runner is cancelled before every informer and event pump ever added is, and StopAndWait of their
      group is over. */
  lemma InformersStopFirst(run: seq<Action>, m: State, kind: Kind, c: G.Id, b: G.Id)
    requires Exec(INIT, run) == Some(m) && UniqueIds(run)
    requires AddTask(BpfRunner, b) in run && Watches(kind) && AddTask(kind, c) in run && CancelledIn(m, b)
    ensures CancelledIn(m, c) && StoppedIn(m, c)
  {
    RunHomes(run, m);
    var g: GroupName :| b in Get(m, g).adds && Get(m, g).g.cancelled;
    RunnersAreBpf(run, m, b, g);
    PumpStopsBeforePrograms(m);
    assert c in Get(m, Caches).adds && Get(m, Caches).g.cancelled;
  }

  // ----- when the manager is ready -----

  predicate ReturnedOk(s: G.State) { 0 in s.start.calls && s.start.calls[0] == G.Returned(false) }

  predicate PastPumpsStart(pc: MainPc) {
    pc == CallStart(BpfPrograms) || pc == InStart(BpfPrograms) || PastBpfStart(pc)
  }

  predicate PastBpfStart(pc: MainPc) { pc == CallStart(Caches) || pc == InStart(Caches) || pc.Serving? }

  // What the calls of Start by the manager have returned.
  ghost predicate CallsInv(m: State) {
    && (PastPumpsStart(m.main) ==> ReturnedOk(m.pumps))
    && (PastBpfStart(m.main) ==> ReturnedOk(m.bpf))
    && (m.main.Serving? ==> ReturnedOk(m.caches))
    && (forall g: GroupName :: 0 in Get(m, g).start.calls && m.main != InStart(g) ==>
          Get(m, g).start.calls[0].Returned?)
  }

  lemma CallsMove(s: G.State, a: G.Action, t: G.State)
    requires G.Step(s, a) == G.Next(t)
    ensures 0 in s.start.calls && s.start.calls[0].Returned? ==>
      0 in t.start.calls && t.start.calls[0] == s.start.calls[0]
    ensures 0 in t.start.calls && 0 !in s.start.calls ==> a == G.StartCall(0)
  {
    match a
    case StartStep =>
    case CheckStep(_, _) =>
    case StopStep =>
    case _ =>
  }

  lemma GroupCalls(m: State, a: Action, n: State, g: GroupName)
    requires CallsInv(m) && Step(m, a) == Some(n)
    ensures ReturnedOk(Get(m, g)) ==> ReturnedOk(Get(n, g))
    ensures 0 in Get(n, g).start.calls && m.main != InStart(g) && n.main != InStart(g) ==>
      Get(n, g).start.calls[0].Returned?
  {
    var b := GroupMoves(m, a, n, g);
    if b.Some? {
      CallsMove(Get(m, g), b.value, Get(n, g));
    }
  }

  lemma MainMoves(m: State, a: Action, n: State)
    requires Step(m, a) == Some(n) && n.main != m.main
    ensures m.main.InStart? ==>
      && Get(n, m.main.g) == Get(m, m.main.g) && 0 in Get(m, m.main.g).start.calls
      && Get(m, m.main.g).start.calls[0].Returned?
      && (ShuttingDown(n.main) || ReturnedOk(Get(m, m.main.g)))
    ensures n.main == CallStart(BpfPrograms) ==> m.main == InStart(Pumps)
    ensures n.main == CallStart(Caches) ==> m.main == InStart(BpfPrograms)
    ensures n.main.Serving? ==> m.main == InStart(Caches)
    ensures n.main.InStart? ==> m.main == CallStart(n.main.g)
  {
  }

  lemma CallsKept(m: State, a: Action, n: State)
    requires CallsInv(m) && Step(m, a) == Some(n)
    ensures CallsInv(n)
  {
    if n.main != m.main {
      MainMoves(m, a, n);
    }
    forall g: GroupName
      ensures ReturnedOk(Get(m, g)) ==> ReturnedOk(Get(n, g))
      ensures 0 in Get(n, g).start.calls && n.main != InStart(g) ==> Get(n, g).start.calls[0].Returned?
    {
      GroupCalls(m, a, n, g);
    }
    assert ReturnedOk(Get(m, Pumps)) ==> ReturnedOk(Get(n, Pumps));
    assert ReturnedOk(Get(m, BpfPrograms)) ==> ReturnedOk(Get(n, BpfPrograms));
    assert ReturnedOk(Get(m, Caches)) ==> ReturnedOk(Get(n, Caches));
  }

  lemma {:induction false} RunCalls(m: State, run: seq<Action>, n: State)
    requires CallsInv(m) && Exec(m, run) == Some(n)
    ensures CallsInv(n)
    decreases |run|
  {
    if run != [] {
      CallsKept(m, run[0], Step(m, run[0]).value);
      RunCalls(Step(m, run[0]).value, run[1..], n);
    }
  }

  /** The manager serves only when Start of every group has returned nil to it, and a shutdown begins only
      when none of its calls of Start is still running. */
  lemma ReadyMeansStarted(run: seq<Action>, m: State)
    requires Exec(INIT, run) == Some(m)
    ensures m.main.Serving? ==> ReturnedOk(m.pumps) && ReturnedOk(m.bpf) && ReturnedOk(m.caches)
    ensures ShuttingDown(m.main) ==> forall g: GroupName :: 0 in Get(m, g).start.calls ==>
      Get(m, g).start.calls[0].Returned?
  {
    RunCalls(INIT, run, m);
  }

  // ----- a run that becomes ready -----

  const CALLED: G.State := G.INIT.(start := G.INIT.start.(calls := map[0 := G.Calling]))

  // The body of Start on an empty queue, up to its sending loop and from there.
  const TO_SENDS: seq<G.Action> := [G.StartEnter(0), G.StartStep, G.StartStep, G.StartStep]
  const FROM_SENDS: seq<G.Action> := [G.StartStep, G.StartStep, G.StartStep, G.StartStep, G.StartReturn(0)]

  const SENDING: G.State := CALLED.(
    lk := G.INIT.lk.(start := G.ByStart), g := G.INIT.g.(started := true), recon := G.Receiving,
    start := CALLED.start.(pc := G.SendQueued(0), owner := Some(0)))

  lemma EmptyStartSends()
    ensures G.Exec(CALLED, TO_SENDS) == G.Next(SENDING)
  {
    assert G.Exec(CALLED, TO_SENDS).Next?;
  }

  lemma EmptyStartEnds() returns (t: G.State)
    ensures G.Exec(SENDING, FROM_SENDS) == G.Next(t) && ReturnedOk(t)
  {
    t := G.Exec(SENDING, FROM_SENDS).state;
  }

  lemma EmptyStartReturns() returns (t: G.State)
    ensures G.Exec(CALLED, TO_SENDS + FROM_SENDS) == G.Next(t) && ReturnedOk(t)
  {
    EmptyStartSends();
    t := EmptyStartEnds();
    G.ExecConcat(CALLED, TO_SENDS, FROM_SENDS);
  }

  function AfterStart(g: GroupName): MainPc {
    match g
    case Pumps => CallStart(BpfPrograms)
    case BpfPrograms => CallStart(Caches)
    case Caches => Serving
  }

  lemma StartsGroup(m: State, g: GroupName) returns (run: seq<Action>, n: State)
    requires m.main == CallStart(g) && Get(m, g) == G.INIT
    ensures Exec(m, run) == Some(n) && n.main == AfterStart(g) && n == Put(m, g, Get(n, g)).(main := n.main)
  {
    var inner := TO_SENDS + FROM_SENDS;
    var t := EmptyStartReturns();
    var u := Put(m, g, CALLED).(main := InStart(g));
    assert Step(m, MainStep) == Some(u);
    assert forall a :: a in inner ==> Inside(a);
    WrapRuns(u, g, inner, t);
    var v := Put(u, g, t);
    n := Step(v, MainStep).value;
    ExecConcat(u, Wrap(g, inner), [MainStep]);
    assert [MainStep][1..] == [];
    run := [MainStep] + (Wrap(g, inner) + [MainStep]);
    assert run[1..] == Wrap(g, inner) + [MainStep];
  }

  /** There is a run at whose end the manager serves. */
  lemma ServingIsReachable() returns (run: seq<Action>, m: State)
    ensures Exec(INIT, run) == Some(m) && m.main.Serving?
  {
    var first, u := StartsGroup(INIT, Pumps);
    var second, v := StartsGroup(u, BpfPrograms);
    var third;
    third, m := StartsGroup(v, Caches);
    ExecConcat(u, second, third);
    ExecConcat(INIT, first, second + third);
    run := first + (second + third);
  }

  lemma ServingIsNotStuck(m: State, q: Silence)
    requires Reachable(m) && m.main.Serving?
    ensures NoneStuck(m, q)
  {
    var run :| Exec(INIT, run) == Some(m);
    ReadyMeansStarted(run, m);
    ReachableManagerInv(m);
    forall g: GroupName
      ensures !Stuck(Get(m, g), In(q, g))
    {
      assert ReturnedOk(Get(m, g));
      StartedIsNotStuck(Get(m, g), In(q, g));
    }
  }

  lemma StartedIsNotStuck(s: G.State, silent: iset<G.Id>)
    requires G.Reachable(s) && ReturnedOk(s)
    ensures !Stuck(s, silent)
  {
    ReachableInv(s);
    if Stuck(s, silent) {
      var id :| Owed(s, id) && (id in silent || Failed(s, id));
      OwedIsEarly(s, id);
    }
  }

  /** From every state in which the manager serves there is a run to a shutdown that returns nil, whatever
      Checks still wait. */
  lemma ServingCanStop(m: State, q: Silence) returns (run: seq<Action>, n: State)
    requires Reachable(m) && m.main.Serving?
    ensures Exec(m, run) == Some(n) && n.main == ShutdownReturned(true) && Obeys(run, q)
  {
    var before :| Exec(INIT, before) == Some(m);
    var u := Step(m, MainGivesUp).value;
    assert [MainGivesUp][1..] == [];
    assert Exec(m, [MainGivesUp]) == Some(u);
    ExecConcat(INIT, before, [MainGivesUp]);
    assert Exec(INIT, before + [MainGivesUp]) == Some(u);
    ServingIsNotStuck(m, q);
    assert forall g: GroupName :: Get(u, g) == Get(m, g);
    NilPossibleIff(u, q);
    var more :| Exec(u, more).Some? && NilReturned(Exec(u, more).value) && Obeys(more, q);
    n := Exec(u, more).value;
    ExecConcat(m, [MainGivesUp], more);
    run := [MainGivesUp] + more;
  }
}
