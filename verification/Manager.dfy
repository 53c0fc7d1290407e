/** The task manager: the order in which it starts its groups and the shutdown of all of them under one
    deadline, as a state machine over three runnable groups. */
module Manager {
  import opened Wrappers
  import G = Group
  import opened GroupInvariant
  import opened GroupSafety

  datatype GroupName = Caches | BpfPrograms | Pumps

  // What runnables.Add tells apart by type.
  datatype Kind = BpfRunner | Cache | EventPump | OtherRunnable

  /** The group that a runnable is added to; anything else is ignored. */
  function Route(kind: Kind): Option<GroupName> {
    match kind
    case BpfRunner => Some(BpfPrograms)
    case Cache => Some(Caches)
    case EventPump => Some(Caches)
    case OtherRunnable => None
  }

  // TaskManager.Start and the deferred shutdown.
  datatype MainPc =
    | CallStart(g: GroupName)
    | InStart(g: GroupName)
    | Serving                // waits for its context or an error
    | AwaitShutdown          // <-tm.shutdownCtx.Done()
    | ShutdownReturned(ok: bool)

  // The goroutine of shutdown that stops the groups.
  datatype StopperPc =
    | NotSpawned
    | CallStop(g: GroupName)
    | InStop(g: GroupName)
    | CancelShutdown
    | StopperDone

  datatype ShutdownCtx = NotCreated | Live | Canceled | DeadlineExceeded

  datatype State = State(
    caches: G.State,
    bpf: G.State,
    pumps: G.State,
    main: MainPc,
    stopper: StopperPc,
    ctx: ShutdownCtx)

  const INIT: State := State(G.INIT, G.INIT, G.INIT, CallStart(Pumps), NotSpawned, NotCreated)

  datatype Action =
    | AddTask(kind: Kind, id: G.Id)
    | InGroup(g: GroupName, a: G.Action)
    | MainStep
    | MainGivesUp           // an error before or between the starts, a done context, or an error of a runnable
    | StopperStep
    | Deadline              // the five seconds are over

  function Get(m: State, g: GroupName): G.State {
    match g
    case Caches => m.caches
    case BpfPrograms => m.bpf
    case Pumps => m.pumps
  }

  function Put(m: State, g: GroupName, s: G.State): State {
    match g
    case Caches => m.(caches := s)
    case BpfPrograms => m.(bpf := s)
    case Pumps => m.(pumps := s)
  }

  function Within(m: State, g: GroupName, a: G.Action): Option<State> {
    match G.Step(Get(m, g), a)
    case Next(s) => Some(Put(m, g, s))
    case _ => None
  }

  // Calls from outside a group are made by the manager alone; contexts end when their owner says so.
  predicate Internal(m: State, a: G.Action) {
    match a
    case AddCall(_) => false
    case StartCall(_) => false
    case StopCall(_) => false
    case StopCtxEnds => m.ctx.Canceled? || m.ctx.DeadlineExceeded?
    case _ => true
  }

  function MainStepOf(m: State): Option<State> {
    match m.main
    case CallStart(g) =>
      (match Within(m, g, G.StartCall(0))
       case Some(n) => Some(n.(main := InStart(g)))
       case None => None)
    case InStart(g) =>
      var calls := Get(m, g).start.calls;
      if 0 !in calls || !calls[0].Returned? then None
      else if calls[0].failed then Some(BeginShutdown(m))
      else Some(m.(main := match g
                           case Pumps => CallStart(BpfPrograms)
                           case BpfPrograms => CallStart(Caches)
                           case Caches => Serving))
    case Serving => None
    case AwaitShutdown =>
      if m.ctx.Canceled? then Some(m.(main := ShutdownReturned(true)))
      else if m.ctx.DeadlineExceeded? then Some(m.(main := ShutdownReturned(false)))
      else None
    case ShutdownReturned(_) => None
  }

  function BeginShutdown(m: State): State {
    m.(main := AwaitShutdown, stopper := CallStop(Caches), ctx := Live)
  }

  function StopperStepOf(m: State): Option<State> {
    match m.stopper
    case NotSpawned => None
    case CallStop(g) =>
      (match Within(m, g, G.StopCall(0))
       case Some(n) => Some(n.(stopper := InStop(g)))
       case None => None)
    case InStop(g) =>
      var calls := Get(m, g).stop.calls;
      if 0 !in calls || !calls[0].Returned? then None
      else Some(m.(stopper := match g
                              case Caches => CallStop(BpfPrograms)
                              case BpfPrograms => CallStop(Pumps)
                              case Pumps => CancelShutdown))
    case CancelShutdown =>
      // Cancelling a context that is already done changes nothing.
      Some(m.(stopper := StopperDone, ctx := if m.ctx.Live? then Canceled else m.ctx))
    case StopperDone => None
  }

  function Step(m: State, a: Action): Option<State> {
    match a
    case AddTask(kind, id) =>
      (match Route(kind)
       case Some(g) => Within(m, g, G.AddCall(id))
       case None => Some(m))
    case InGroup(g, b) => if Internal(m, b) then Within(m, g, b) else None
    case MainStep => MainStepOf(m)
    case MainGivesUp => if m.main.CallStart? || m.main.Serving? then Some(BeginShutdown(m)) else None
    case StopperStep => StopperStepOf(m)
    case Deadline => if m.ctx.Live? then Some(m.(ctx := DeadlineExceeded)) else None
  }

  function Exec(m: State, run: seq<Action>): Option<State>
    decreases |run|
  {
    if run == [] then Some(m)
    else match Step(m, run[0])
      case Some(n) => Exec(n, run[1..])
      case None => None
  }

  ghost predicate Reachable(m: State) {
    exists run :: Exec(INIT, run) == Some(m)
  }

  // ----- what one step of a group can change -----

  lemma StopFrame(s: G.State, a: G.Action, t: G.State)
    requires G.Step(s, a) == G.Next(t)
    ensures t.stop.expired == s.stop.expired || a.StopCtxEnds?
    ensures s.stop.pc.StopFinished? ==> t.stop.pc == s.stop.pc
    ensures t.stop.calls.Keys == s.stop.calls.Keys || (a.StopCall? && t.stop.calls.Keys == s.stop.calls.Keys + {a.c})
    ensures !s.stop.pc.StopNotEntered? || t.stop.pc == s.stop.pc || (a.StopEnter? && a.c in s.stop.calls)
    ensures t.stop.pc.StopNotEntered? ==> s.stop.pc.StopNotEntered?
  {
    match a
    case StopStep =>
    case StartStep =>
    case AddStep(_) =>
    case _ =>
  }

  lemma StartFrame(s: G.State, a: G.Action, t: G.State)
    requires G.Step(s, a) == G.Next(t)
    ensures s.start.pc.Finished? ==> t.start.pc.Finished?
    ensures t.start.calls.Keys == s.start.calls.Keys
      || (a.StartCall? && t.start.calls.Keys == s.start.calls.Keys + {a.c})
    ensures s.start.pc.NotEntered? ==>
      t.start.pc.NotEntered? || (a.StartEnter? && a.c in s.start.calls) || s.stop.pc.CallingStart?
  {
    match a
    case StopStep =>
    case StartStep =>
    case AddStep(_) =>
    case CheckStep(_, _) =>
    case _ =>
  }

  lemma AddFrame(s: G.State, a: G.Action, t: G.State)
    requires G.Step(s, a) == G.Next(t)
    ensures t.adds.Keys == s.adds.Keys || a.AddCall?
  {
    match a
    case AddStep(_) =>
    case StartStep =>
    case _ =>
  }

  /** All that a step may change of what the manager relies on. */
  ghost predicate Frame(s: G.State, a: G.Action, t: G.State) {
    && (t.stop.expired == s.stop.expired || a.StopCtxEnds?)
    && (s.stop.pc.StopFinished? ==> t.stop.pc == s.stop.pc)
    && (t.stop.calls.Keys == s.stop.calls.Keys || (a.StopCall? && t.stop.calls.Keys == s.stop.calls.Keys + {a.c}))
    && (!s.stop.pc.StopNotEntered? || t.stop.pc == s.stop.pc || s.stop.calls.Keys != {})
    && (t.stop.pc.StopNotEntered? ==> s.stop.pc.StopNotEntered?)
    && (s.start.pc.Finished? ==> t.start.pc.Finished?)
    && (t.start.calls.Keys == s.start.calls.Keys
        || (a.StartCall? && t.start.calls.Keys == s.start.calls.Keys + {a.c}))
    && (s.start.pc.NotEntered? ==>
          t.start.pc.NotEntered? || s.start.calls.Keys != {} || !s.stop.pc.StopNotEntered?)
    && (t.adds.Keys == s.adds.Keys || a.AddCall?)
  }

  lemma StepsInFrame(s: G.State, a: G.Action, t: G.State)
    requires G.Reachable(s) && G.Step(s, a) == G.Next(t)
    ensures Frame(s, a, t) && G.Reachable(t)
  {
    G.StepReachable(s, a);
    StopFrame(s, a, t);
    StartFrame(s, a, t);
    AddFrame(s, a, t);
  }

  // ----- the invariant -----

  predicate ShuttingDown(pc: MainPc) { pc.AwaitShutdown? || pc.ShutdownReturned? }

  predicate Untouched(s: G.State) { s.stop.pc.StopNotEntered? && s.stop.calls.Keys == {} }

  predicate StartCalled(s: G.State) { s.start.calls.Keys != {} }

  // The groups that the stopper has finished with.
  predicate PastCaches(pc: StopperPc) {
    pc == CallStop(BpfPrograms) || pc == InStop(BpfPrograms) || PastBpf(pc)
  }

  predicate PastBpf(pc: StopperPc) { pc == CallStop(Pumps) || pc == InStop(Pumps) || PastPumps(pc) }

  predicate PastPumps(pc: StopperPc) { pc.CancelShutdown? || pc.StopperDone? }

  ghost predicate GroupsInv(m: State) {
    G.Reachable(m.caches) && G.Reachable(m.bpf) && G.Reachable(m.pumps)
  }

  /** What the manager relies on of the invariant of a group. */
  ghost predicate Honest(s: G.State) {
    && (s.stop.pc == G.StopFinished(false) ==> s.stop.expired)
    && (0 in s.stop.calls && s.stop.calls[0].Returned? ==> s.stop.pc.StopFinished?)
    && (0 in s.start.calls && s.start.calls[0].Returned? ==> s.start.pc.Finished?)
  }

  lemma GroupIsHonest(s: G.State)
    requires G.Reachable(s)
    ensures Honest(s)
  {
    ReachableInv(s);
  }

  ghost predicate ShutdownInv(m: State) {
    && (ShuttingDown(m.main) <==> !m.ctx.NotCreated?)
    && (m.stopper.NotSpawned? <==> !ShuttingDown(m.main))
    && (!ShuttingDown(m.main) ==> Untouched(m.caches))
    && (!PastCaches(m.stopper) ==> Untouched(m.bpf))
    && (!PastBpf(m.stopper) ==> Untouched(m.pumps))
    && (PastCaches(m.stopper) ==> m.caches.stop.pc.StopFinished?)
    && (PastBpf(m.stopper) ==> m.bpf.stop.pc.StopFinished?)
    && (PastPumps(m.stopper) ==> m.pumps.stop.pc.StopFinished?)
    && (m.stopper.CallStop? ==> Untouched(Get(m, m.stopper.g)))
    && (m.stopper.InStop? ==> 0 in Get(m, m.stopper.g).stop.calls)
  }

  ghost predicate CtxInv(m: State) {
    && (m.ctx.NotCreated? || m.ctx.Live? ==>
          !m.caches.stop.expired && !m.bpf.stop.expired && !m.pumps.stop.expired)
    && (m.ctx.Canceled? ==>
          && m.caches.stop.pc == G.StopFinished(true)
          && m.bpf.stop.pc == G.StopFinished(true)
          && m.pumps.stop.pc == G.StopFinished(true))
    && (m.stopper.StopperDone? ==> m.ctx.Canceled? || m.ctx.DeadlineExceeded?)
    && (m.main.ShutdownReturned? ==> if m.main.ok then m.ctx.Canceled? else m.ctx.DeadlineExceeded?)
  }

  ghost predicate StartOrderInv(m: State) {
    && (m.main == CallStart(BpfPrograms) || m.main == InStart(BpfPrograms) || StartCalled(m.bpf)
        ==> m.pumps.start.pc.Finished?)
    && (m.main == CallStart(Caches) || m.main == InStart(Caches) || m.main.Serving? || StartCalled(m.caches)
        ==> m.pumps.start.pc.Finished? && m.bpf.start.pc.Finished?)
    && (m.caches.start.pc.NotEntered? || StartCalled(m.caches) || !m.caches.stop.pc.StopNotEntered?)
  }

  ghost predicate ManagerInv(m: State) {
    GroupsInv(m) && OrderlyInv(m)
  }

  ghost predicate OrderlyInv(m: State) {
    m.pumps.adds.Keys == {} && ShutdownInv(m) && CtxInv(m) && StartOrderInv(m)
  }

  lemma InitManagerInv()
    ensures ManagerInv(INIT)
  {
    assert G.Exec(G.INIT, []) == G.Next(G.INIT);
  }

  predicate MayAct(m: State, g: GroupName, a: G.Action) {
    && !a.StartCall? && !a.StopCall?
    && (a.AddCall? ==> !g.Pumps?)
    && (a.StopCtxEnds? ==> m.ctx.Canceled? || m.ctx.DeadlineExceeded?)
  }

  lemma FrameKeepsOrder(m: State, g: GroupName, a: G.Action, s: G.State)
    requires OrderlyInv(m) && Frame(Get(m, g), a, s) && MayAct(m, g, a)
    ensures OrderlyInv(Put(m, g, s))
  {
    match g
    case Caches =>
    case BpfPrograms =>
    case Pumps =>
  }

  lemma StartFrameKeepsOrder(m: State, g: GroupName, s: G.State)
    requires OrderlyInv(m) && Frame(Get(m, g), G.StartCall(0), s) && m.main == CallStart(g)
    ensures OrderlyInv(Put(m, g, s).(main := InStart(g)))
  {
    match g
    case Caches =>
    case BpfPrograms =>
    case Pumps =>
  }

  lemma StopFrameKeepsOrder(m: State, g: GroupName, s: G.State)
    requires OrderlyInv(m) && Frame(Get(m, g), G.StopCall(0), s) && m.stopper == CallStop(g) && 0 in s.stop.calls
    ensures OrderlyInv(Put(m, g, s).(stopper := InStop(g)))
  {
    match g
    case Caches =>
    case BpfPrograms =>
    case Pumps =>
  }

  lemma MainReturnKeepsOrder(m: State)
    requires OrderlyInv(m) && Honest(m.caches) && Honest(m.bpf) && Honest(m.pumps)
    requires !m.main.CallStart? && MainStepOf(m).Some?
    ensures OrderlyInv(MainStepOf(m).value)
  {
  }

  lemma StopperReturnKeepsOrder(m: State)
    requires OrderlyInv(m) && Honest(m.caches) && Honest(m.bpf) && Honest(m.pumps)
    requires !m.stopper.CallStop? && StopperStepOf(m).Some?
    ensures OrderlyInv(StopperStepOf(m).value)
  {
  }

  lemma OutsideStepKeepsOrder(m: State, a: Action, n: State)
    requires OrderlyInv(m) && (a.MainGivesUp? || a.Deadline?) && Step(m, a) == Some(n)
    ensures OrderlyInv(n) && n.caches == m.caches && n.bpf == m.bpf && n.pumps == m.pumps
  {
  }

  lemma InnerStepKeeps(m: State, g: GroupName, a: G.Action, n: State)
    requires ManagerInv(m) && Within(m, g, a) == Some(n) && MayAct(m, g, a)
    ensures ManagerInv(n)
  {
    var s := G.Step(Get(m, g), a).state;
    StepsInFrame(Get(m, g), a, s);
    FrameKeepsOrder(m, g, a, s);
  }

  lemma MainStepKeeps(m: State, n: State)
    requires ManagerInv(m) && MainStepOf(m) == Some(n)
    ensures ManagerInv(n)
  {
    if m.main.CallStart? {
      var s := G.Step(Get(m, m.main.g), G.StartCall(0)).state;
      StepsInFrame(Get(m, m.main.g), G.StartCall(0), s);
      StartFrameKeepsOrder(m, m.main.g, s);
    } else {
      GroupIsHonest(m.caches);
      GroupIsHonest(m.bpf);
      GroupIsHonest(m.pumps);
      MainReturnKeepsOrder(m);
    }
  }

  lemma StopperStepKeeps(m: State, n: State)
    requires ManagerInv(m) && StopperStepOf(m) == Some(n)
    ensures ManagerInv(n)
  {
    if m.stopper.CallStop? {
      var s := G.Step(Get(m, m.stopper.g), G.StopCall(0)).state;
      StepsInFrame(Get(m, m.stopper.g), G.StopCall(0), s);
      StopFrameKeepsOrder(m, m.stopper.g, s);
    } else {
      GroupIsHonest(m.caches);
      GroupIsHonest(m.bpf);
      GroupIsHonest(m.pumps);
      StopperReturnKeepsOrder(m);
    }
  }

  lemma StepKeepsManagerInv(m: State, a: Action, n: State)
    requires ManagerInv(m) && Step(m, a) == Some(n)
    ensures ManagerInv(n)
  {
    match a
    case AddTask(kind, id) =>
      if Route(kind).Some? {
        InnerStepKeeps(m, Route(kind).value, G.AddCall(id), n);
      }
    case InGroup(g, b) => InnerStepKeeps(m, g, b, n);
    case MainStep => MainStepKeeps(m, n);
    case StopperStep => StopperStepKeeps(m, n);
    case MainGivesUp => OutsideStepKeepsOrder(m, a, n);
    case Deadline => OutsideStepKeepsOrder(m, a, n);
  }

  lemma {:induction false} ExecKeepsManagerInv(m: State, run: seq<Action>)
    requires ManagerInv(m) && Exec(m, run).Some?
    ensures ManagerInv(Exec(m, run).value)
    decreases |run|
  {
    if run != [] {
      StepKeepsManagerInv(m, run[0], Step(m, run[0]).value);
      ExecKeepsManagerInv(Step(m, run[0]).value, run[1..]);
    }
  }

  lemma ReachableManagerInv(m: State)
    requires Reachable(m)
    ensures ManagerInv(m)
  {
    var run :| Exec(INIT, run) == Some(m);
    InitManagerInv();
    ExecKeepsManagerInv(INIT, run);
  }

  lemma {:induction false} ExecConcat(m: State, first: seq<Action>, second: seq<Action>)
    requires Exec(m, first).Some?
    ensures Exec(m, first + second) == Exec(Exec(m, first).value, second)
    decreases |first|
  {
    if first == [] {
      assert first + second == second;
    } else {
      assert (first + second)[1..] == first[1..] + second;
      ExecConcat(Step(m, first[0]).value, first[1..], second);
    }
  }

  // ----- theorems -----

  ghost predicate Quiescent(s: G.State) {
    StoppedThroughDone(s) && LiveRunners(s.jobs.runners) == {} && s.g.wg == 0
  }

  /** shutdown returns nil exactly when its context ended by cancel rather than by deadline. In that case
      every StopAndWait returned through done and all three groups are quiescent. */
  lemma ShutdownResult(m: State)
    requires Reachable(m) && m.main.ShutdownReturned?
    ensures m.main.ok <==> m.ctx.Canceled?
    ensures !m.main.ok <==> m.ctx.DeadlineExceeded?
    ensures m.main.ok ==> Quiescent(m.caches) && Quiescent(m.bpf) && Quiescent(m.pumps)
  {
    ReachableManagerInv(m);
    ReachableInv(m.caches);
    ReachableInv(m.bpf);
    ReachableInv(m.pumps);
  }

  /** Outside a shutdown the informers, which feed pods to the BPF runners, are started only after Start of
      the BPF programs has returned: every runnable queued there has been launched and found ready. */
  lemma CachesStartLast(m: State)
    requires Reachable(m) && !ShuttingDown(m.main) && !m.caches.start.pc.NotEntered?
    ensures m.pumps.start.pc.Finished? && m.bpf.start.pc.Finished?
    ensures m.bpf.h.initial <= m.bpf.h.launched && forall id :: id in m.bpf.h.initial ==> id in m.bpf.h.acked
  {
    ReachableManagerInv(m);
    ReachableInv(m.bpf);
    forall id | id in m.bpf.h.initial
      ensures id in m.bpf.h.acked
    {
      RemainingMember(m.bpf.h.initial, m.bpf.h.acked, id);
    }
  }

  /** The event pump is routed to the caches, so the group named after it never holds anything, and the
      pump is cancelled, and StopAndWait of its group over (through done or its expired context), before any BPF
      program is cancelled. */
  lemma PumpStopsBeforePrograms(m: State)
    requires Reachable(m)
    ensures Route(EventPump) == Some(Caches) && m.pumps.h.launched == []
    ensures m.bpf.g.cancelled ==> m.caches.stop.pc.StopFinished? && m.caches.g.cancelled
  {
    ReachableManagerInv(m);
    ReachableInv(m.caches);
    ReachableInv(m.bpf);
    ReachableInv(m.pumps);
    NothingAddedNothingLaunched(m.pumps);
  }

  lemma NothingAddedNothingLaunched(s: G.State)
    requires FlowInv(s) && s.adds.Keys == {}
    ensures s.h.launched == []
  {
    assert multiset(s.h.launched) == multiset{} by {
      assert forall id :: multiset(s.h.launched)[id] <= Bag(PipeOf(s))[id];
    }
    assert |s.h.launched| == |multiset(s.h.launched)|;
  }
}
