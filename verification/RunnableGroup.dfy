/** The in-place queue operations of a runnable group, as the loops that perform them.

    A method stands for a block that runs while other goroutines move. The lemmas at the end show, for the
    protocol of Group, that each block has the effect of its method in every interleaving.
 */
module RunnableGroups {
  import opened Group
  import opened GroupInvariant
  import opened GroupSafety
  import opened GroupOverlap

  // What the select loop of Start can receive.
  datatype Arrival = Ready(id: Id) | CtxDone(pastDeadline: bool)

  /** The queue after a sequence of arrivals. */
  function AfterArrivals(q: seq<Id>, arrivals: seq<Arrival>): seq<Id>
    decreases |arrivals|
  {
    if arrivals == [] then q
    else
      var before := AfterArrivals(q, arrivals[..|arrivals| - 1]);
      match arrivals[|arrivals| - 1]
      case Ready(id) => RemoveFirst(before, id)
      case CtxDone(_) => before
  }

  function Signals(arrivals: seq<Arrival>): set<Id> {
    set a | a in arrivals && a.Ready? :: a.id
  }

  /** The fields after the sending loop has gone through sent. */
  function AfterSends(g: Fields, sent: seq<Id>): Fields
    decreases |sent|
  {
    if sent == [] then g.(started := true)
    else MarkSent(AfterSends(g, sent[..|sent| - 1]), sent[|sent| - 1])
  }

  /** What the block of Add that holds r.start does. */
  function AfterRegister(g: Fields, id: Id): Fields { if g.started then g else Enqueue(g, id) }

  /** What the block of reconcile that holds r.stop for reading does. */
  function AfterAdmission(g: Fields): Fields { if g.stopped then g else Admit(g) }

  lemma {:induction false} RemoveFirstAt(q: seq<Id>, i: nat)
    requires i < |q| && q[i] !in q[..i]
    ensures RemoveFirst(q, q[i]) == q[..i] + q[i + 1..]
  {
    if i > 0 {
      assert q[1..][..i - 1] == q[..i][1..];
      RemoveFirstAt(q[1..], i - 1);
      assert q[..i] == [q[0]] + q[1..][..i - 1];
    }
  }

  class RunnableGroup {
    var started: bool
    var startQueue: seq<Id>
    var signalReady: set<Id>
    var startReadyClosed: bool
    var stopped: bool
    var chClosed: bool
    var cancelled: bool
    var wg: nat

    /** The fields of the protocol state. */
    ghost function View(): Fields
      reads this
    {
      Fields(started, startQueue, signalReady, startReadyClosed, stopped, chClosed, cancelled, wg)
    }

    constructor ()
      ensures View() == INIT.g
    {
      started, startQueue, signalReady, startReadyClosed := false, [], {}, false;
      stopped, chClosed, cancelled, wg := false, false, false, 0;
    }

    /** The block of Add that holds r.start. */
    method Register(id: Id) returns (queued: bool)
      modifies this`startQueue
      ensures queued == !started && View() == AfterRegister(old(View()), id)
    {
      queued := !started;
      if queued {
        startQueue := startQueue + [id];
      }
    }

    /** The block of Start that holds r.start: it sends the queue as it stands, in order. */
    method SendQueue() returns (sent: seq<Id>)
      modifies this`started, this`signalReady
      ensures sent == startQueue && View() == AfterSends(old(View()), sent)
    {
      started := true;
      sent := [];
      for i := 0 to |startQueue|
        invariant sent == startQueue[..i] && View() == AfterSends(old(View()), sent)
      {
        ghost var before := sent;
        signalReady := signalReady + {startQueue[i]};
        sent := sent + [startQueue[i]];
        assert sent[..|sent| - 1] == before;
      }
    }

    /** The splice made for one ready signal. */
    method Take(id: Id)
      modifies this`startQueue
      ensures View() == TakeReady(old(View()), id)
    {
      ghost var q := startQueue;
      var i := 0;
      while i < |startQueue|
        invariant i <= |startQueue| && startQueue == q && id !in q[..i]
        decreases |q| - i
      {
        if startQueue[i] == id {
          RemoveFirstAt(q, i);
          startQueue := startQueue[..i] + startQueue[i + 1..];
          return;
        }
        i := i + 1;
      }
      RemoveAbsent(q, id);
    }

    /** The select loop of Start on a given order of arrivals: it returns at the first signal that empties
        the queue and at nothing else; a done context only sets the error. */
    method AwaitReady(arrivals: seq<Arrival>) returns (returned: bool, consumed: nat, failed: bool)
      requires startQueue != []
      modifies this`startQueue
      ensures consumed <= |arrivals| && startQueue == AfterArrivals(old(startQueue), arrivals[..consumed])
      ensures returned <==> startQueue == []
      ensures returned ==> consumed > 0 && AfterArrivals(old(startQueue), arrivals[..consumed - 1]) != []
      ensures !returned ==> consumed == |arrivals|
      ensures failed <==> CtxDone(true) in arrivals[..consumed]
    {
      returned, consumed, failed := false, 0, false;
      while consumed < |arrivals| && !returned
        invariant consumed <= |arrivals| && startQueue == AfterArrivals(old(startQueue), arrivals[..consumed])
        invariant returned <==> startQueue == []
        invariant returned ==> consumed > 0 && AfterArrivals(old(startQueue), arrivals[..consumed - 1]) != []
        invariant failed <==> CtxDone(true) in arrivals[..consumed]
        decreases |arrivals| - consumed, !returned
      {
        assert arrivals[..consumed + 1] == arrivals[..consumed] + [arrivals[consumed]];
        match arrivals[consumed] {
          case CtxDone(pastDeadline) =>
            failed := failed || pastDeadline;
          case Ready(id) =>
            Take(id);
            returned := startQueue == [];
        }
        consumed := consumed + 1;
      }
    }

    /** The block of reconcile that holds r.stop for reading. */
    method AdmitOrDrop() returns (admitted: bool)
      modifies this`wg
      ensures admitted == !stopped && View() == AfterAdmission(old(View()))
    {
      admitted := !stopped;
      if admitted {
        wg := wg + 1;
      }
    }

    /** The deferred wg.Done of a runner. */
    method Done()
      requires wg > 0
      modifies this`wg
      ensures View() == Release(old(View()))
    {
      wg := wg - 1;
    }
  }

  /** After the sending loop exactly the queued runnables are marked, and only the two flags have changed. */
  lemma {:induction false} SendsMark(g: Fields, sent: seq<Id>)
    ensures AfterSends(g, sent) == g.(started := true, signal := g.signal + Elements(sent))
    decreases |sent|
  {
    if sent != [] {
      var most, last := sent[..|sent| - 1], sent[|sent| - 1];
      SendsMark(g, most);
      assert sent == most + [last];
      assert Elements(sent) == Elements(most) + {last};
    }
  }

  /** Whatever the order of the signals, repetitions and expiries in between: what is left is the original
      queue without the runnables that signalled, in its order. */
  lemma {:induction false} AnyArrivalOrder(q: seq<Id>, arrivals: seq<Arrival>)
    requires NoDuplicates(q)
    ensures AfterArrivals(q, arrivals) == Remaining(q, Signals(arrivals))
    decreases |arrivals|
  {
    if arrivals == [] {
      RemainingOfAll(q);
      assert Signals(arrivals) == {};
    } else {
      var most, last := arrivals[..|arrivals| - 1], arrivals[|arrivals| - 1];
      assert arrivals == most + [last];
      AnyArrivalOrder(q, most);
      match last {
        case CtxDone(_) => assert Signals(arrivals) == Signals(most);
        case Ready(id) =>
          assert Signals(arrivals) == Signals(most) + {id};
          if id in q && id !in Signals(most) {
            RemoveFromRemaining(q, Signals(most), id);
          } else {
            RemainingMember(q, Signals(most), id);
            RemoveAbsent(Remaining(q, Signals(most)), id);
            RemainingSame(q, Signals(most), Signals(most) + {id});
          }
      }
    }
  }

  lemma {:induction false} RemoveAbsent(q: seq<Id>, id: Id)
    requires id !in q
    ensures RemoveFirst(q, id) == q
  {
    if q != [] {
      RemoveAbsent(q[1..], id);
    }
  }

  /** The select loop is over exactly when every queued runnable has signalled. */
  lemma LoopEndsIff(q: seq<Id>, arrivals: seq<Arrival>)
    requires NoDuplicates(q)
    ensures AfterArrivals(q, arrivals) == [] <==> forall id :: id in q ==> id in Signals(arrivals)
  {
    AnyArrivalOrder(q, arrivals);
    forall id | id in q
      ensures id in Remaining(q, Signals(arrivals)) <==> id !in Signals(arrivals)
    {
      RemainingMember(q, Signals(arrivals), id);
    }
    if Remaining(q, Signals(arrivals)) != [] {
      RemainingMember(q, Signals(arrivals), Remaining(q, Signals(arrivals))[0]);
    }
  }

  // ----- the blocks in the protocol -----

  predicate InBlock(s: State, id: Id) { id in s.adds && AddHoldsStart(s.adds[id]) }

  predicate PastBlock(s: State, id: Id) {
    id in s.adds && (s.adds[id].ReturnedNil? || s.adds[id].ReturnedStopped? || s.adds[id].Sending?)
  }

  lemma PastBlockStays(s: State, a: Action, id: Id)
    requires PastBlock(s, id) && Step(s, a).Next?
    ensures PastBlock(Step(s, a).state, id)
  {
    match a
    case AddStep(_) =>
    case StopStep =>
    case _ =>
  }

  lemma {:induction false} PastBlockForGood(s: State, id: Id, run: seq<Action>)
    requires PastBlock(s, id) && Exec(s, run).Next?
    ensures PastBlock(Exec(s, run).state, id)
    decreases |run|
  {
    if run != [] {
      PastBlockStays(s, run[0], id);
      PastBlockForGood(Step(s, run[0]).state, id, run[1..]);
    }
  }

  /** The own steps of Add(id) in its block. */
  lemma BlockMoves(s: State, id: Id)
    requires InBlock(s, id) && AddStepOf(s, id).Next?
    ensures var t := AddStepOf(s, id).state;
      if s.adds[id].ReadStarted? then Within(s, t, id) && !t.adds[id].ReadStarted? else PastBlock(t, id)
  {
  }

  // From s to t Add(id) has done nothing in its block but its append, and nobody else has interfered.
  predicate Within(s: State, t: State, id: Id) {
    && InBlock(s, id) && InBlock(t, id) && t.g.started == s.g.started
    && (t.adds[id].ReadStarted? ==> s.adds[id].ReadStarted?)
    && (!s.g.started ==>
          var added := if s.adds[id].ReadStarted? && t.adds[id].QueuedUnlock? then [id] else [];
          t.g.queue == s.g.queue + added)
    && (s.adds[id].ReadStarted? || t.adds[id] == s.adds[id])
    && (s.adds[id].ReadStarted? && t.adds[id].QueuedUnlock? ==> !s.g.started)
    && (s.adds[id].ReadStarted? && t.adds[id].LateUnlock? ==> s.g.started)
  }

  // What a step of anyone else leaves alone while Add(id) holds r.start.
  predicate Undisturbed(s: State, t: State, id: Id)
    requires id in s.adds
  {
    && id in t.adds && t.adds[id] == s.adds[id]
    && t.g.started == s.g.started && (!s.g.started ==> t.g.queue == s.g.queue)
  }

  lemma AddLeavesBlock(s: State, other: Id, id: Id)
    requires StartLockInv(s) && InBlock(s, id) && other != id && AddStepOf(s, other).Next?
    ensures Undisturbed(s, AddStepOf(s, other).state, id)
  {
  }

  lemma StartLeavesBlock(s: State, id: Id)
    requires StartLockInv(s) && StartInv(s) && InBlock(s, id) && StartStepOf(s).Next?
    ensures Undisturbed(s, StartStepOf(s).state, id)
  {
  }

  lemma CheckLeavesBlock(s: State, other: Id, ready: bool, id: Id)
    requires StartInv(s) && InBlock(s, id) && CheckStepOf(s, other, ready).Next?
    ensures Undisturbed(s, CheckStepOf(s, other, ready).state, id)
  {
  }

  lemma OthersLeaveBlock(s: State, a: Action, id: Id)
    requires InBlock(s, id) && !a.AddStep? && !a.StartStep? && !a.CheckStep? && Step(s, a).Next?
    ensures Undisturbed(s, Step(s, a).state, id)
  {
    match a
    case ReconStep =>
    case StopStep =>
    case RunnerStep(_, _) =>
    case _ =>
  }

  /** While Add(id) holds r.start nobody else touches started, or the queue of a group that is not started. */
  lemma BlockProtects(s: State, a: Action, id: Id)
    requires StartLockInv(s) && StartInv(s) && InBlock(s, id) && a != AddStep(id) && Step(s, a).Next?
    ensures Undisturbed(s, Step(s, a).state, id)
  {
    if a.AddStep? {
      AddLeavesBlock(s, a.id, id);
    } else if a.StartStep? {
      StartLeavesBlock(s, id);
    } else if a.CheckStep? {
      CheckLeavesBlock(s, a.id, a.ready, id);
    } else {
      OthersLeaveBlock(s, a, id);
    }
  }

  lemma OneStepWithin(s: State, a: Action, id: Id)
    requires Inv(s) && InBlock(s, id) && Step(s, a).Next?
    ensures var t := Step(s, a).state; Within(s, t, id) || PastBlock(t, id)
  {
    if a == AddStep(id) {
      BlockMoves(s, id);
    } else {
      BlockProtects(s, a, id);
    }
  }

  lemma WithinTwice(s: State, u: State, t: State, id: Id)
    requires Within(s, u, id) && Within(u, t, id)
    ensures Within(s, t, id)
  {
  }

  lemma {:induction false} BlockIsAtomic(s: State, id: Id, run: seq<Action>)
    requires Inv(s) && InBlock(s, id) && Exec(s, run).Next? && InBlock(Exec(s, run).state, id)
    ensures Within(s, Exec(s, run).state, id)
    decreases |run|
  {
    if run != [] {
      var u := Step(s, run[0]).state;
      StepKeepsInv(s, run[0]);
      OneStepWithin(s, run[0], id);
      if PastBlock(u, id) {
        PastBlockForGood(u, id, run[1..]);
      } else {
        BlockIsAtomic(u, id, run[1..]);
        WithinTwice(s, u, Exec(u, run[1..]).state, id);
      }
    }
  }

  /** Register, in any interleaving: between the moment an Add locks r.start and the moment it is about to
      unlock it, started has not changed, and the queue of a group that is not started has changed as Register
      changes it; the Add takes the branch that Register reports. */
  lemma RegisterIsAtomic(s: State, id: Id, run: seq<Action>)
    requires Reachable(s) && id in s.adds && s.adds[id].ReadStarted? && Exec(s, run).Next?
    requires var t := Exec(s, run).state; id in t.adds && (t.adds[id].QueuedUnlock? || t.adds[id].LateUnlock?)
    ensures var t, after := Exec(s, run).state, AfterRegister(s.g, id);
      && t.g.started == after.started && (t.adds[id].QueuedUnlock? <==> !s.g.started)
      && (!s.g.started ==> t.g.queue == after.queue)
  {
    ReachableInv(s);
    BlockIsAtomic(s, id, run);
  }

  // Reconcile stays in its block for id all along the run.
  predicate StaysInBlock(s: State, run: seq<Action>, id: Id)
    decreases |run|
  {
    && (s.recon == ReadStop(id) || s.recon == WillAdmit(id) || s.recon == SendDrop(id) || s.recon == Admitted(id))
    && (run == [] || !Step(s, run[0]).Next? || StaysInBlock(Step(s, run[0]).state, run[1..], id))
  }

  predicate CallsDone(s: State, a: Action) {
    a.RunnerStep? && a.id in s.jobs.runners && s.jobs.runners[a.id].WgDone?
  }

  /** How often a runner calls Done in the run. */
  function DonesIn(s: State, run: seq<Action>): nat
    decreases |run|
  {
    if run == [] || !Step(s, run[0]).Next? then 0
    else (if CallsDone(s, run[0]) then 1 else 0) + DonesIn(Step(s, run[0]).state, run[1..])
  }

  // How far the admission of id is.
  function Given(pc: ReconPc): nat { if pc.Admitted? then 1 else 0 }

  lemma CounterMoves(s: State, a: Action, id: Id)
    requires StartInv(s) && WriterInv(s) && ReaderInv(s) && ReadInv(s) && StaysInBlock(s, [a], id) && Step(s, a).Next?
    ensures var t := Step(s, a).state;
      && t.g.stopped == s.g.stopped
      && t.g.wg + (if CallsDone(s, a) then 1 else 0) + Given(s.recon) == s.g.wg + Given(t.recon)
  {
    assert ReconReader in s.lk.readers;
    WriterAloneStops(s, a);
    if !a.ReconStep? && !a.RunnerStep? {
      OthersLeaveCounter(s, a);
    }
  }

  lemma OthersLeaveCounter(s: State, a: Action)
    requires StartInv(s) && !a.ReconStep? && !a.RunnerStep? && Step(s, a).Next?
    ensures var t := Step(s, a).state; t.g.wg == s.g.wg && Given(t.recon) == Given(s.recon)
  {
    match a
    case AddStep(_) =>
    case StartStep =>
    case CheckStep(_, _) =>
    case StopStep =>
    case _ =>
  }

  lemma {:induction false} CounterFollows(s: State, run: seq<Action>, id: Id)
    requires Inv(s) && StaysInBlock(s, run, id) && Exec(s, run).Next?
    ensures var t := Exec(s, run).state;
      && t.g.stopped == s.g.stopped
      && t.g.wg + DonesIn(s, run) + Given(s.recon) == s.g.wg + Given(t.recon)
    decreases |run|
  {
    if run != [] {
      var u := Step(s, run[0]).state;
      CounterMoves(s, run[0], id);
      StepKeepsInv(s, run[0]);
      CounterFollows(u, run[1..], id);
    }
  }

  lemma AdmittedOrDropped(s: State)
    requires ReadInv(s) && (s.recon.Admitted? || s.recon.SendDrop?)
    ensures s.recon.Admitted? <==> !s.g.stopped
  {
  }

  /** AdmitOrDrop and Done, in any interleaving: while reconcile is in its block for a runnable, stopped does
      not change and the counter changes as AdmitOrDrop changes it, less one for every runner that calls Done
      meanwhile; the runnable is admitted or dropped as AdmitOrDrop reports. */
  lemma AdmissionIsAtomic(s: State, id: Id, run: seq<Action>)
    requires Reachable(s) && s.recon == ReadStop(id) && StaysInBlock(s, run, id) && Exec(s, run).Next?
    requires var t := Exec(s, run).state; t.recon.Admitted? || t.recon.SendDrop?
    ensures var t, after := Exec(s, run).state, AfterAdmission(s.g);
      && t.g.stopped == after.stopped && (t.recon.Admitted? <==> !s.g.stopped)
      && t.g.wg + DonesIn(s, run) == after.wg
  {
    ReachableInv(s);
    CounterFollows(s, run, id);
    ExecKeepsInv(s, run);
    AdmittedOrDropped(Exec(s, run).state);
  }

  /** No step changes stopped while r.stop is held for reading. */
  lemma ReadersPinStopped(s: State, a: Action)
    requires Reachable(s) && s.lk.readers != {} && Step(s, a).Next?
    ensures Step(s, a).state.g.stopped == s.g.stopped
  {
    ReachableInv(s);
    WriterAloneStops(s, a);
  }

  lemma WriterAloneStops(s: State, a: Action)
    requires WriterInv(s) && s.lk.readers != {} && Step(s, a).Next?
    ensures Step(s, a).state.g.stopped == s.g.stopped
  {
    if a.StopStep? {
      StopLeavesStopped(s);
    } else if a.AddStep? {
      AddLeavesStopped(s, a.id);
    } else {
      OthersLeaveAdds(s, a, Step(s, a).state);
    }
  }

  lemma StopLeavesStopped(s: State)
    requires WriterInv(s) && s.lk.readers != {} && StopStepOf(s).Next?
    ensures StopStepOf(s).state.g.stopped == s.g.stopped
  {
  }

  lemma AddLeavesStopped(s: State, id: Id)
    requires AddStepOf(s, id).Next?
    ensures AddStepOf(s, id).state.g.stopped == s.g.stopped
  {
  }

  // q is the queue at the moment when Start sets started.
  predicate SendsFrom(s: State, q: seq<Id>) {
    if s.start.pc.SetStarted? then s.g.queue == q else !BeforeSends(s.start.pc) && s.h.initial == q
  }

  lemma SendsFromStays(s: State, a: Action, q: seq<Id>)
    requires StartLockInv(s) && StartInv(s) && SendsFrom(s, q) && (s.start.pc.SetStarted? ==> s.jobs.checks.Keys == {})
    requires Step(s, a).Next?
    ensures SendsFrom(Step(s, a).state, q)
  {
    match a
    case AddStep(_) =>
    case StartStep =>
    case CheckStep(_, _) =>
    case _ =>
  }

  lemma {:induction false} SendsFromForGood(s: State, q: seq<Id>, run: seq<Action>)
    requires Inv(s) && SendsFrom(s, q) && Exec(s, run).Next?
    ensures Inv(Exec(s, run).state) && SendsFrom(Exec(s, run).state, q)
    decreases |run|
  {
    if run != [] {
      if s.start.pc.SetStarted? {
        NothingChecked(s);
      }
      StepKeepsInv(s, run[0]);
      SendsFromStays(s, run[0], q);
      SendsFromForGood(Step(s, run[0]).state, q, run[1..]);
    }
  }

  /** SendQueue, in any interleaving of Start with reconcile and the other goroutines. */
  lemma SendsAreAtomic(s: State, run: seq<Action>)
    requires Reachable(s) && s.start.pc.SetStarted? && Exec(s, run).Next? && Exec(s, run).state.start.pc.UnlockStart?
    ensures var g, after := Exec(s, run).state.g, AfterSends(s.g, s.g.queue);
      g.started == after.started && g.queue == after.queue && g.signal == after.signal
  {
    ReachableInv(s);
    SendsFromForGood(s, s.g.queue, run);
    SendsMark(s.g, s.g.queue);
    RemainingOfAll(s.g.queue);
    assert Elements([]) == {};
  }

  /** What the select loop receives when the step a is taken. */
  function ArrivalOf(s: State, a: Action): seq<Arrival> {
    if a.StartSelectsCtx? then [CtxDone(s.start.ctx.DeadlineExceeded?)]
    else if a.CheckStep? && a.id in s.jobs.checks && s.jobs.checks[a.id].Signalling? then [Ready(a.id)]
    else []
  }

  function ArrivalsOf(s: State, run: seq<Action>): seq<Arrival>
    decreases |run|
  {
    if run == [] || !Step(s, run[0]).Next? then []
    else ArrivalOf(s, run[0]) + ArrivalsOf(Step(s, run[0]).state, run[1..])
  }

  lemma {:induction false} ArrivalsConcat(q: seq<Id>, first: seq<Arrival>, second: seq<Arrival>)
    ensures AfterArrivals(q, first + second) == AfterArrivals(AfterArrivals(q, first), second)
    decreases |second|
  {
    var all := first + second;
    if second == [] {
      assert all == first;
    } else {
      assert all[..|all| - 1] == first + second[..|second| - 1];
      ArrivalsConcat(q, first, second[..|second| - 1]);
    }
  }

  predicate InLoop(pc: StartPc) { pc.AwaitReady? || pc.CloseReady? || pc.Finished? }

  lemma LoopFollowsCheck(s: State, id: Id, ready: bool)
    requires StartInv(s) && InLoop(s.start.pc) && CheckStepOf(s, id, ready).Next?
    ensures var t := CheckStepOf(s, id, ready).state;
      && InLoop(t.start.pc) && t.start.retErr == s.start.retErr
      && t.g.queue == if s.jobs.checks[id].Signalling? then RemoveFirst(s.g.queue, id) else s.g.queue
  {
  }

  lemma LoopFollowsOthers(s: State, a: Action)
    requires StartInv(s) && InLoop(s.start.pc) && !a.CheckStep? && Step(s, a).Next?
    ensures var t := Step(s, a).state;
      && InLoop(t.start.pc) && t.g.queue == s.g.queue
      && t.start.retErr == (s.start.retErr || (a.StartSelectsCtx? && s.start.ctx.DeadlineExceeded?))
  {
    match a
    case AddStep(_) =>
    case StartStep =>
    case StopStep =>
    case _ =>
  }

  lemma OneArrival(s: State, a: Action)
    requires StartInv(s) && InLoop(s.start.pc) && Step(s, a).Next?
    ensures var t := Step(s, a).state;
      && InLoop(t.start.pc) && t.g.queue == AfterArrivals(s.g.queue, ArrivalOf(s, a))
      && t.start.retErr == (s.start.retErr || CtxDone(true) in ArrivalOf(s, a))
  {
    if a.CheckStep? {
      LoopFollowsCheck(s, a.id, a.ready);
      assert [Ready(a.id)][..0] == [];
    } else {
      LoopFollowsOthers(s, a);
      assert a.StartSelectsCtx? ==> ArrivalOf(s, a)[..0] == [];
    }
  }

  /** AwaitReady, in any interleaving: whatever else runs, the queue is what the arrivals at the select leave
      of it, the loop is left exactly when that is empty, and the error is set by a deadline among them. */
  lemma {:induction false} LoopFollowsArrivals(s: State, run: seq<Action>)
    requires Inv(s) && InLoop(s.start.pc) && Exec(s, run).Next?
    ensures var t := Exec(s, run).state; var arrivals := ArrivalsOf(s, run);
      && t.g.queue == AfterArrivals(s.g.queue, arrivals)
      && InLoop(t.start.pc) && (t.start.pc.AwaitReady? <==> t.g.queue != [])
      && (t.start.retErr <==> s.start.retErr || CtxDone(true) in arrivals)
    decreases |run|
  {
    if run != [] {
      var u := Step(s, run[0]).state;
      StepKeepsInv(s, run[0]);
      OneArrival(s, run[0]);
      LoopFollowsArrivals(u, run[1..]);
      ArrivalsConcat(s.g.queue, ArrivalOf(s, run[0]), ArrivalsOf(u, run[1..]));
    }
  }
}
