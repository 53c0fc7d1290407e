/** When shutdown can return nil.

    The groups are stopped one after the other. A StopAndWait that waits for a Check keeps everything behind it
    from being stopped: while a runnable of the caches is not ready the BPF programs are not even cancelled.
 */
module ManagerProgress {
  import opened Wrappers
  import G = Group
  import opened GroupInvariant
  import opened GroupProgress
  import opened Manager

  // For each group, the runnables whose Check never returns true from now on.
  datatype Silence = Silence(caches: iset<G.Id>, bpf: iset<G.Id>, pumps: iset<G.Id>)

  function In(q: Silence, g: GroupName): iset<G.Id> {
    match g
    case Caches => q.caches
    case BpfPrograms => q.bpf
    case Pumps => q.pumps
  }

  ghost predicate Obeys(run: seq<Action>, q: Silence) {
    forall g: GroupName, id :: id in In(q, g) ==> InGroup(g, G.CheckStep(id, true)) !in run
  }

  ghost predicate NoneStuck(m: State, q: Silence) {
    forall g: GroupName :: !Stuck(Get(m, g), In(q, g))
  }

  ghost predicate NilReturned(m: State) { m.main == ShutdownReturned(true) }

  // ----- a stuck group -----

  /** What a step of the manager is to one of its groups. */
  lemma GroupMoves(m: State, a: Action, n: State, g: GroupName) returns (b: Option<G.Action>)
    requires Step(m, a) == Some(n)
    ensures match b
      case None => Get(n, g) == Get(m, g)
      case Some(c) =>
        && G.Step(Get(m, g), c) == G.Next(Get(n, g)) && (c.CheckStep? ==> a == InGroup(g, c))
        && (c.StartCall? ==> a.MainStep? && m.main == CallStart(g) && n.main == InStart(g) && c.c == 0)
        && (c.StopCall? ==> a.StopperStep?)
  {
    b := None;
    match a {
      case AddTask(kind, id) => if Route(kind) == Some(g) { b := Some(G.AddCall(id)); }
      case InGroup(h, c) => if h == g { b := Some(c); }
      case MainStep => if m.main == CallStart(g) { b := Some(G.StartCall(0)); }
      case StopperStep => if m.stopper == CallStop(g) { b := Some(G.StopCall(0)); }
      case _ =>
    }
  }

  // The group waits for the Check of id, which has failed or is silent.
  predicate WaitsFor(s: G.State, id: G.Id, silent: iset<G.Id>) {
    Owed(s, id) && (id in silent || Failed(s, id))
  }

  lemma WaitStays(s: G.State, b: G.Action, id: G.Id, silent: iset<G.Id>)
    requires Inv(s) && WaitsFor(s, id, silent) && G.Step(s, b).Next?
    requires id in silent ==> b != G.CheckStep(id, true)
    ensures WaitsFor(G.Step(s, b).state, id, silent)
  {
    OwedStays(s, b, id);
  }

  lemma {:induction false} WaitForGood(m: State, run: seq<Action>, g: GroupName, id: G.Id, q: Silence)
    requires ManagerInv(m) && WaitsFor(Get(m, g), id, In(q, g)) && Obeys(run, q) && Exec(m, run).Some?
    ensures var n := Exec(m, run).value; ManagerInv(n) && WaitsFor(Get(n, g), id, In(q, g))
    decreases |run|
  {
    if run != [] {
      var n := Step(m, run[0]).value;
      var b := GroupMoves(m, run[0], n, g);
      ReachableInv(Get(m, g));
      if b.Some? {
        assert run[0] in run;
        WaitStays(Get(m, g), b.value, id, In(q, g));
      }
      StepKeepsManagerInv(m, run[0], n);
      WaitForGood(n, run[1..], g, id, q);
    }
  }

  /** While a group waits for such a Check, its StopAndWait is no further than its call of Start. */
  lemma WaitingIsEarly(m: State, g: GroupName, id: G.Id, silent: iset<G.Id>)
    requires ManagerInv(m) && WaitsFor(Get(m, g), id, silent)
    ensures !Get(m, g).stop.pc.StopFinished? && !m.ctx.Canceled? && !NilReturned(m)
  {
    ReachableInv(Get(m, g));
    OwedIsEarly(Get(m, g), id);
  }

  /** If a group is stuck, shutdown never returns nil; if it is the caches, the BPF programs are never even
      cancelled. */
  lemma StuckGroupBlocks(m: State, run: seq<Action>, g: GroupName, q: Silence)
    requires Reachable(m) && Stuck(Get(m, g), In(q, g)) && Obeys(run, q) && Exec(m, run).Some?
    ensures var n := Exec(m, run).value; !NilReturned(n) && (g.Caches? ==> !n.bpf.g.cancelled)
  {
    ReachableManagerInv(m);
    var id :| Owed(Get(m, g), id) && (id in In(q, g) || Failed(Get(m, g), id));
    WaitForGood(m, run, g, id, q);
    var n := Exec(m, run).value;
    WaitingIsEarly(n, g, id, In(q, g));
    if g.Caches? {
      CancelledInOrder(n);
    }
  }

  lemma CancelledInOrder(m: State)
    requires ManagerInv(m)
    ensures m.bpf.g.cancelled ==> m.caches.stop.pc.StopFinished?
  {
    ReachableInv(m.bpf);
  }

  lemma {:induction false} DeadlineIsFinal(m: State, run: seq<Action>)
    requires m.ctx.DeadlineExceeded? && ShuttingDown(m.main) && ManagerInv(m) && Exec(m, run).Some?
    ensures !NilReturned(Exec(m, run).value)
    decreases |run|
  {
    if run != [] {
      var n := Step(m, run[0]).value;
      StepKeepsManagerInv(m, run[0], n);
      CtxStays(m, run[0], n);
      DeadlineIsFinal(n, run[1..]);
    }
  }

  lemma CtxStays(m: State, a: Action, n: State)
    requires m.ctx.DeadlineExceeded? && ShuttingDown(m.main) && Step(m, a) == Some(n)
    ensures n.ctx.DeadlineExceeded? && ShuttingDown(n.main)
  {
  }

  // ----- the stopper at work -----

  function Wrap(g: GroupName, run: seq<G.Action>): seq<Action>
    decreases |run|
  {
    if run == [] then [] else [InGroup(g, run[0])] + Wrap(g, run[1..])
  }

  lemma {:induction false} WrapMember(g: GroupName, run: seq<G.Action>, a: Action)
    requires a in Wrap(g, run)
    ensures a.InGroup? && a.g == g && a.a in run
    decreases |run|
  {
    if a != InGroup(g, run[0]) {
      WrapMember(g, run[1..], a);
    }
  }

  lemma WrapObeys(g: GroupName, run: seq<G.Action>, q: Silence)
    requires Spares(run, In(q, g))
    ensures Obeys(Wrap(g, run), q)
  {
    forall h: GroupName, id | id in In(q, h) && InGroup(h, G.CheckStep(id, true)) in Wrap(g, run)
      ensures false
    {
      WrapMember(g, run, InGroup(h, G.CheckStep(id, true)));
    }
  }

  // No call that the manager makes, and no end of its context.
  predicate Inside(a: G.Action) { !a.AddCall? && !a.StartCall? && !a.StopCall? && !a.StopCtxEnds? }

  /** A run inside one group is a run of the manager. */
  lemma {:induction false} WrapRuns(m: State, g: GroupName, run: seq<G.Action>, t: G.State)
    requires (forall a :: a in run ==> Inside(a)) && G.Exec(Get(m, g), run) == G.Next(t)
    ensures Exec(m, Wrap(g, run)) == Some(Put(m, g, t))
    decreases |run|
  {
    if run != [] {
      assert run[0] in run;
      var n := Put(m, g, G.Step(Get(m, g), run[0]).state);
      WrapRuns(n, g, run[1..], t);
      assert Wrap(g, run)[1..] == Wrap(g, run[1..]);
    }
  }

  // A shutdown that can still come to a good end.
  ghost predicate Ongoing(m: State, q: Silence) {
    ManagerInv(m) && m.ctx.Live? && m.main.AwaitShutdown? && NoneStuck(m, q)
  }

  lemma Then(m: State, first: seq<Action>, n: State, second: seq<Action>, o: State, q: Silence)
      returns (run: seq<Action>)
    requires Exec(m, first) == Some(n) && Exec(n, second) == Some(o) && Obeys(first, q) && Obeys(second, q)
    ensures Exec(m, run) == Some(o) && Obeys(run, q)
  {
    ExecConcat(m, first, second);
    run := first + second;
  }

  lemma One(m: State, a: Action, n: State, q: Silence) returns (run: seq<Action>)
    requires Step(m, a) == Some(n) && (a.InGroup? ==> !a.a.CheckStep?)
    ensures Exec(m, run) == Some(n) && Obeys(run, q)
  {
    run := [a];
    assert run[1..] == [];
  }

  lemma StopCallStep(m: State, q: Silence) returns (n: State)
    requires Ongoing(m, q) && m.stopper.CallStop?
    ensures Step(m, StopperStep) == Some(n) && Ongoing(n, q) && n.stopper == InStop(m.stopper.g)
  {
    var g := m.stopper.g;
    n := Step(m, StopperStep).value;
    StepKeepsManagerInv(m, StopperStep, n);
    StuckIgnoresStop(Get(m, g), Get(n, g), In(q, g));
    assert forall h: GroupName :: h != g ==> Get(n, h) == Get(m, h);
  }

  lemma StopEnterStep(m: State, g: GroupName, q: Silence) returns (n: State)
    requires Ongoing(m, q) && m.stopper == InStop(g) && Get(m, g).stop.pc.StopNotEntered?
    ensures Step(m, InGroup(g, G.StopEnter(0))) == Some(n) && Ongoing(n, q) && n.stopper == m.stopper
    ensures !Get(n, g).stop.pc.StopNotEntered?
  {
    GroupIsHonest(Get(m, g));
    var a := InGroup(g, G.StopEnter(0));
    n := Step(m, a).value;
    StepKeepsManagerInv(m, a, n);
    StuckIgnoresStop(Get(m, g), Get(n, g), In(q, g));
    assert forall h: GroupName :: h != g ==> Get(n, h) == Get(m, h);
  }

  lemma FinishedIsNotStuck(s: G.State, silent: iset<G.Id>)
    requires G.Reachable(s) && s.stop.pc.StopFinished?
    ensures !Stuck(s, silent)
  {
    ReachableInv(s);
    if Stuck(s, silent) {
      var id :| Owed(s, id) && (id in silent || Failed(s, id));
      OwedIsEarly(s, id);
    }
  }

  /** StopAndWait of the group comes to its end. */
  lemma GroupFinishes(m: State, g: GroupName, q: Silence) returns (run: seq<Action>, n: State)
    requires Ongoing(m, q) && m.stopper == InStop(g) && !Get(m, g).stop.pc.StopNotEntered?
    ensures Exec(m, run) == Some(n) && Obeys(run, q) && Ongoing(n, q) && n.stopper == m.stopper
    ensures Get(n, g).stop.pc.StopFinished?
  {
    ReachableInv(Get(m, g));
    var inner, t := StopCanFinish(Get(m, g), In(q, g));
    run, n := Wrap(g, inner), Put(m, g, t);
    WrapRuns(m, g, inner, t);
    WrapObeys(g, inner, q);
    ExecKeepsManagerInv(m, run);
    FinishedKeepsOngoing(m, g, t, q);
  }

  lemma FinishedKeepsOngoing(m: State, g: GroupName, t: G.State, q: Silence)
    requires Ongoing(m, q) && ManagerInv(Put(m, g, t)) && t.stop.pc.StopFinished?
    ensures Ongoing(Put(m, g, t), q)
    ensures Put(m, g, t).stopper == m.stopper && Get(Put(m, g, t), g) == t
  {
    var n := Put(m, g, t);
    FinishedIsNotStuck(t, In(q, g));
    assert forall h: GroupName :: h != g ==> Get(n, h) == Get(m, h);
  }

  function NextStop(g: GroupName): StopperPc {
    match g
    case Caches => CallStop(BpfPrograms)
    case BpfPrograms => CallStop(Pumps)
    case Pumps => CancelShutdown
  }

  lemma StopReturnStep(m: State, g: GroupName, q: Silence) returns (run: seq<Action>, n: State)
    requires Ongoing(m, q) && m.stopper == InStop(g) && Get(m, g).stop.pc.StopFinished?
    ensures Exec(m, run) == Some(n) && Obeys(run, q) && Ongoing(n, q) && n.stopper == m.stopper
    ensures 0 in Get(n, g).stop.calls && Get(n, g).stop.calls[0].Returned?
  {
    if Get(m, g).stop.calls[0].Returned? {
      run, n := [], m;
    } else {
      var a := InGroup(g, G.StopReturn(0));
      n := Step(m, a).value;
      run := One(m, a, n, q);
      StepKeepsManagerInv(m, a, n);
      StuckIgnoresStop(Get(m, g), Get(n, g), In(q, g));
      assert forall h: GroupName :: h != g ==> Get(n, h) == Get(m, h);
    }
  }

  lemma StopperMovesOn(m: State, g: GroupName, q: Silence) returns (n: State)
    requires Ongoing(m, q) && m.stopper == InStop(g)
    requires 0 in Get(m, g).stop.calls && Get(m, g).stop.calls[0].Returned?
    ensures Step(m, StopperStep) == Some(n) && Ongoing(n, q) && n.stopper == NextStop(g)
  {
    n := Step(m, StopperStep).value;
    StepKeepsManagerInv(m, StopperStep, n);
    assert forall h: GroupName :: Get(n, h) == Get(m, h);
  }

  lemma StopEntered(m: State, g: GroupName, q: Silence) returns (run: seq<Action>, n: State)
    requires Ongoing(m, q) && (m.stopper == CallStop(g) || m.stopper == InStop(g))
    ensures Exec(m, run) == Some(n) && Obeys(run, q) && Ongoing(n, q) && n.stopper == InStop(g)
    ensures !Get(n, g).stop.pc.StopNotEntered?
  {
    run, n := [], m;
    if m.stopper.CallStop? {
      n := StopCallStep(m, q);
      run := One(m, StopperStep, n, q);
    }
    if Get(n, g).stop.pc.StopNotEntered? {
      var o := StopEnterStep(n, g, q);
      var last := One(n, InGroup(g, G.StopEnter(0)), o, q);
      run := Then(m, run, n, last, o, q);
      n := o;
    }
  }

  /** The stopper gets done with a group. */
  lemma GroupStops(m: State, g: GroupName, q: Silence) returns (run: seq<Action>, n: State)
    requires Ongoing(m, q) && (m.stopper == CallStop(g) || m.stopper == InStop(g))
    ensures Exec(m, run) == Some(n) && Obeys(run, q) && Ongoing(n, q) && n.stopper == NextStop(g)
  {
    var a, b, c, d;
    run, a := StopEntered(m, g, q);
    var second, third, last;
    second, b := GroupFinishes(a, g, q);
    run := Then(m, run, a, second, b, q);
    third, c := StopReturnStep(b, g, q);
    run := Then(m, run, b, third, c, q);
    d := StopperMovesOn(c, g, q);
    last := One(c, StopperStep, d, q);
    run := Then(m, run, c, last, d, q);
    n := d;
  }

  // How many groups the stopper has yet to get done with.
  function ToStop(pc: StopperPc): nat {
    if !pc.CallStop? && !pc.InStop? then 0
    else match pc.g
      case Caches => 3
      case BpfPrograms => 2
      case Pumps => 1
  }

  lemma StopperFinishes(m: State, q: Silence) returns (run: seq<Action>, n: State)
    requires Ongoing(m, q)
    ensures Exec(m, run) == Some(n) && Obeys(run, q) && Ongoing(n, q) && n.stopper.CancelShutdown?
    decreases ToStop(m.stopper)
  {
    run, n := [], m;
    if m.stopper.CallStop? || m.stopper.InStop? {
      var u;
      run, u := GroupStops(m, m.stopper.g, q);
      var rest;
      rest, n := StopperFinishes(u, q);
      run := Then(m, run, u, rest, n, q);
    }
  }

  lemma CancelReturns(m: State, q: Silence) returns (run: seq<Action>, n: State)
    requires m.main.AwaitShutdown? && (m.ctx.Canceled? || (m.ctx.Live? && m.stopper.CancelShutdown?))
    ensures Exec(m, run) == Some(n) && Obeys(run, q) && NilReturned(n)
  {
    run, n := [], m;
    if m.ctx.Live? {
      n := Step(m, StopperStep).value;
      run := One(m, StopperStep, n, q);
    }
    var o := Step(n, MainStep).value;
    var last := One(n, MainStep, o, q);
    run := Then(m, run, n, last, o, q);
    n := o;
  }

  /** In a shutdown, let q be the runnables whose Check never returns true from now on. It can still return nil
      if and only if all groups have stopped and the context is cancelled, or the deadline has not passed and
      no group is stuck: a group that has been stopped never is. */
  lemma NilPossibleIff(m: State, q: Silence)
    requires Reachable(m) && ShuttingDown(m.main)
    ensures (exists run :: Exec(m, run).Some? && NilReturned(Exec(m, run).value) && Obeys(run, q)) <==>
      m.ctx.Canceled? || (m.ctx.Live? && NoneStuck(m, q))
  {
    ReachableManagerInv(m);
    if m.ctx.Canceled? {
      if m.main.AwaitShutdown? {
        var run, n := CancelReturns(m, q);
      } else {
        var run: seq<Action> := [];
        assert Exec(m, run) == Some(m) && Exec(m, run).Some? && NilReturned(m) && Obeys(run, q);
      }
    } else if m.ctx.DeadlineExceeded? {
      forall run | Exec(m, run).Some?
        ensures !NilReturned(Exec(m, run).value)
      {
        DeadlineIsFinal(m, run);
      }
    } else if NoneStuck(m, q) {
      var first, n := StopperFinishes(m, q);
      var second, o := CancelReturns(n, q);
      var run := Then(m, first, n, second, o, q);
    } else {
      var g: GroupName :| Stuck(Get(m, g), In(q, g));
      forall run | Exec(m, run).Some? && Obeys(run, q)
        ensures !NilReturned(Exec(m, run).value)
      {
        StuckGroupBlocks(m, run, g, q);
      }
    }
  }

  // ----- the deadline -----

  lemma {:induction false} CancelIsFinal(m: State, run: seq<Action>, n: State)
    requires m.ctx.Canceled? && ManagerInv(m) && Exec(m, run) == Some(n)
    ensures n.ctx.Canceled? && n.main != ShutdownReturned(false)
    decreases |run|
  {
    if run != [] {
      var u := Step(m, run[0]).value;
      StepKeepsManagerInv(m, run[0], u);
      CanceledStays(m, run[0], u);
      CancelIsFinal(u, run[1..], n);
    }
  }

  lemma CanceledStays(m: State, a: Action, n: State)
    requires m.ctx.Canceled? && ManagerInv(m) && Step(m, a) == Some(n)
    ensures n.ctx.Canceled?
  {
  }

  ghost predicate ErrorReturned(m: State) { m.main == ShutdownReturned(false) }

  lemma DeadlineReturns(m: State) returns (run: seq<Action>, n: State)
    requires ErrorReturned(m) || (m.main.AwaitShutdown? && (m.ctx.Live? || m.ctx.DeadlineExceeded?))
    ensures Exec(m, run) == Some(n) && ErrorReturned(n)
  {
    run, n := [], m;
    if m.main.AwaitShutdown? {
      var u := m.(ctx := DeadlineExceeded);
      n := u.(main := ShutdownReturned(false));
      assert Step(u, MainStep) == Some(n);
      run := [MainStep];
      assert run[1..] == [];
      if m.ctx.Live? {
        assert Step(m, Deadline) == Some(u);
        ExecConcat(m, [Deadline], [MainStep]);
        assert [Deadline][1..] == [];
        run := [Deadline] + [MainStep];
      }
    }
  }

  /** In a shutdown the error can still be returned if and only if the context has not been cancelled. */
  lemma ErrorPossibleIff(m: State)
    requires Reachable(m) && ShuttingDown(m.main)
    ensures (exists run :: Exec(m, run).Some? && ErrorReturned(Exec(m, run).value)) <==> !m.ctx.Canceled?
  {
    ReachableManagerInv(m);
    if m.ctx.Canceled? {
      forall run | Exec(m, run).Some?
        ensures !ErrorReturned(Exec(m, run).value)
      {
        CancelIsFinal(m, run, Exec(m, run).value);
      }
    } else {
      var run, n := DeadlineReturns(m);
    }
  }

  const LEAVES: seq<G.Action> := [G.StopCtxEnds, G.StopSelectsCtx, G.StopStep]

  lemma SelectIsLeft(s: G.State) returns (t: G.State)
    requires s.stop.pc.Select?
    ensures G.Exec(s, LEAVES) == G.Next(t) && t.stop == s.stop.(pc := G.StopFinished(false), expired := true)
  {
    var u := G.Step(s, G.StopCtxEnds).state;
    var v := G.Step(u, G.StopSelectsCtx).state;
    t := G.Step(v, G.StopStep).state;
    assert LEAVES[1..] == [G.StopSelectsCtx, G.StopStep] && LEAVES[1..][1..] == [G.StopStep];
    assert LEAVES[1..][1..][1..] == [];
  }

  lemma {:induction false} WrapEnding(m: State, g: GroupName, run: seq<G.Action>, t: G.State)
    requires m.ctx.Canceled? || m.ctx.DeadlineExceeded?
    requires (forall a :: a in run ==> Inside(a) || a.StopCtxEnds?) && G.Exec(Get(m, g), run) == G.Next(t)
    ensures Exec(m, Wrap(g, run)) == Some(Put(m, g, t))
    decreases |run|
  {
    if run != [] {
      assert run[0] in run;
      var n := Put(m, g, G.Step(Get(m, g), run[0]).state);
      WrapEnding(n, g, run[1..], t);
      assert Wrap(g, run)[1..] == Wrap(g, run[1..]);
    }
  }

  /** Once the deadline has passed, a StopAndWait that waits for its runners can leave them behind: its group
      is done with although no runner and no check takes a step. */
  lemma DeadlineFreesStopper(m: State, g: GroupName) returns (run: seq<Action>, n: State)
    requires Reachable(m) && m.ctx.DeadlineExceeded? && m.stopper == InStop(g) && Get(m, g).stop.pc.Select?
    ensures Exec(m, run) == Some(n) && Get(n, g).stop.pc == G.StopFinished(false)
    ensures Get(n, g).jobs == Get(m, g).jobs
    ensures forall a :: a in run ==> a.InGroup? && (a.a.StopCtxEnds? || a.a.StopSelectsCtx? || a.a.StopStep?)
  {
    var t := SelectIsLeft(Get(m, g));
    run, n := Wrap(g, LEAVES), Put(m, g, t);
    WrapEnding(m, g, LEAVES, t);
    LeavesAreStops(Get(m, g), t);
    forall a | a in run
      ensures a.InGroup? && (a.a.StopCtxEnds? || a.a.StopSelectsCtx? || a.a.StopStep?)
    {
      WrapMember(g, LEAVES, a);
    }
  }

  lemma LeavesAreStops(s: G.State, t: G.State)
    requires s.stop.pc.Select? && G.Exec(s, LEAVES) == G.Next(t)
    ensures t.jobs == s.jobs
  {
    var u := G.Step(s, G.StopCtxEnds).state;
    var v := G.Step(u, G.StopSelectsCtx).state;
    assert LEAVES[1..] == [G.StopSelectsCtx, G.StopStep] && LEAVES[1..][1..] == [G.StopStep];
    assert LEAVES[1..][1..][1..] == [];
  }
}
