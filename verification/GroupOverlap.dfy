/** What an Add that overlaps StopAndWait comes to.

    Add is documented to return an error when it is called during StopAndWait. It returns the error exactly
    when it reads stopped as true, and for that it has to lock r.stop after StopAndWait asked for it. An Add
    that read stopped before never returns the error, however much later it goes on: it is queued, handed to
    reconcile and then launched or dropped, or it panics in its send on r.ch, which StopAndWait closes.
 */
module GroupOverlap {
  import opened Group
  import opened GroupInvariant
  import opened GroupSafety
  import opened GroupProgress

  // ----- which Adds return the error -----

  /** Add has read stopped as false, or can still do so. */
  predicate MayPass(s: State, id: Id) {
    || Accepted(s, id)
    || (!s.g.stopped && (s.lk.writer.NoWriter? || (id in s.adds && s.adds[id].ReadStopped?)))
  }

  // Only steps of Add, and of StopAndWait, bear on what an Add will return.
  lemma OthersLeaveAdds(s: State, a: Action, t: State)
    requires Step(s, a) == Next(t) && !a.AddStep? && !a.StopStep?
    ensures t.g.stopped == s.g.stopped && t.lk.writer == s.lk.writer
    ensures t.adds == s.adds || (a.AddCall? && a.id !in s.adds && t.adds == s.adds[a.id := WantStopRLock])
  {
    match a
    case ReconStep =>
    case CheckStep(_, _) =>
    case RunnerStep(_, _) =>
    case StartStep =>
    case StartSelectsCtx =>
    case DrainRecon =>
    case DrainRunner(_) =>
    case _ => CallsLeaveAdds(s, a, t);
  }

  lemma CallsLeaveAdds(s: State, a: Action, t: State)
    requires CallStepOf(s, a) == Next(t)
    ensures t.g.stopped == s.g.stopped && t.lk.writer == s.lk.writer
    ensures t.adds == s.adds || (a.AddCall? && a.id !in s.adds && t.adds == s.adds[a.id := WantStopRLock])
  {
  }

  lemma AcceptedStaysOnAdd(s: State, other: Id, id: Id)
    requires Accepted(s, id) && AddStepOf(s, other).Next?
    ensures Accepted(AddStepOf(s, other).state, id)
  {
  }

  lemma AcceptedStays(s: State, a: Action, id: Id)
    requires Accepted(s, id) && Step(s, a).Next?
    ensures Accepted(Step(s, a).state, id)
  {
    if a.AddStep? {
      AcceptedStaysOnAdd(s, a.id, id);
    } else if !a.StopStep? {
      OthersLeaveAdds(s, a, Step(s, a).state);
    }
  }

  lemma {:induction false} AcceptedForGood(s: State, run: seq<Action>, id: Id)
    requires Accepted(s, id) && Exec(s, run).Next?
    ensures Accepted(Exec(s, run).state, id)
    decreases |run|
  {
    if run != [] {
      AcceptedStays(s, run[0], id);
      AcceptedForGood(Step(s, run[0]).state, run[1..], id);
    }
  }

  lemma ShutOutStaysOnAdd(s: State, other: Id, id: Id)
    requires !MayPass(s, id) && AddStepOf(s, other).Next?
    ensures !MayPass(AddStepOf(s, other).state, id)
  {
  }

  lemma ShutOutStaysOnStop(s: State, id: Id)
    requires StopInv(s) && WriterInv(s) && !MayPass(s, id) && StopStepOf(s).Next?
    ensures !MayPass(StopStepOf(s).state, id)
  {
  }

  lemma ShutOutStays(s: State, a: Action, id: Id)
    requires StopInv(s) && WriterInv(s) && !MayPass(s, id) && Step(s, a).Next?
    ensures !MayPass(Step(s, a).state, id)
  {
    if a.AddStep? {
      ShutOutStaysOnAdd(s, a.id, id);
    } else if a.StopStep? {
      ShutOutStaysOnStop(s, id);
    } else {
      OthersLeaveAdds(s, a, Step(s, a).state);
    }
  }

  lemma {:induction false} ShutOutForGood(s: State, run: seq<Action>, id: Id)
    requires Inv(s) && !MayPass(s, id) && Exec(s, run).Next?
    ensures !MayPass(Exec(s, run).state, id)
    decreases |run|
  {
    if run != [] {
      StepKeepsInv(s, run[0]);
      ShutOutStays(s, run[0], id);
      ShutOutForGood(Step(s, run[0]).state, run[1..], id);
    }
  }

  predicate AddReturned(s: State, id: Id) {
    id in s.adds && (s.adds[id].ReturnedNil? || s.adds[id].ReturnedStopped?)
  }

  /** Once stopped is set, what each Add will return is settled: the error if and only if it has not read
      stopped before. */
  lemma ErrorIff(s: State, id: Id, run: seq<Action>)
    requires Reachable(s) && s.g.stopped && Exec(s, run).Next? && AddReturned(Exec(s, run).state, id)
    ensures Exec(s, run).state.adds[id].ReturnedStopped? <==> !Accepted(s, id)
  {
    ReachableInv(s);
    if Accepted(s, id) {
      AcceptedForGood(s, run, id);
    } else {
      ShutOutForGood(s, run, id);
    }
  }

  lemma {:induction false} ReachableRun(s: State, run: seq<Action>)
    requires Reachable(s) && Exec(s, run).Next?
    ensures Reachable(Exec(s, run).state)
    decreases |run|
  {
    if run != [] {
      StepReachable(s, run[0]);
      ReachableRun(Step(s, run[0]).state, run[1..]);
    }
  }

  /** An Add that can no longer read stopped as false never returns nil and never gets to its send, and its
      runnable is neither launched nor dropped. */
  lemma LaterAddsAreRejected(s: State, id: Id, run: seq<Action>)
    requires Reachable(s) && !MayPass(s, id) && Exec(s, run).Next?
    ensures var t := Exec(s, run).state;
      id !in t.h.launched && id !in t.h.dropped && (id in t.adds ==> !t.adds[id].ReturnedNil? && !t.adds[id].Sending?)
  {
    ReachableInv(s);
    ShutOutForGood(s, run, id);
    ReachableRun(s, run);
    var t := Exec(s, run).state;
    Conservation(t, id);
    assert multiset(t.h.launched)[id] == 0 && multiset(t.h.dropped)[id] == 0;
  }

  /** The step of an Add that has not read stopped. */
  lemma AddPasses(s: State, id: Id) returns (run: seq<Action>, t: State)
    requires ReadInv(s) && MayPass(s, id) && !Accepted(s, id)
    ensures Exec(s, run) == Next(t) && Accepted(t, id)
    decreases id in s.adds, id in s.adds && s.adds[id].WantStopRLock?
  {
    if id !in s.adds {
      var u := Step(s, AddCall(id)).state;
      var first := [AddStep(id), AddStep(id)];
      var v := Step(u, AddStep(id)).state;
      t := Step(v, AddStep(id)).state;
      ExecOne(v, AddStep(id), []);
      ExecOne(u, AddStep(id), [AddStep(id)] + []);
      ExecOne(s, AddCall(id), [AddStep(id)] + ([AddStep(id)] + []));
      run := [AddCall(id)] + ([AddStep(id)] + ([AddStep(id)] + []));
    } else if s.adds[id].WantStopRLock? {
      var v := Step(s, AddStep(id)).state;
      t := Step(v, AddStep(id)).state;
      ExecOne(v, AddStep(id), []);
      ExecOne(s, AddStep(id), [AddStep(id)] + []);
      run := [AddStep(id)] + ([AddStep(id)] + []);
    } else {
      t := Step(s, AddStep(id)).state;
      ExecOne(s, AddStep(id), []);
      run := [AddStep(id)] + [];
    }
  }

  /** From a reachable state, some continuation has Add(id) accepted, so that it never returns the error, if
      and only if it has been accepted, or stopped is not set and either it holds r.stop for reading or
      StopAndWait has not yet asked for r.stop. That StopAndWait has been entered does not matter. */
  lemma AcceptPossibleIff(s: State, id: Id)
    requires Reachable(s)
    ensures (exists run :: Exec(s, run).Next? && Accepted(Exec(s, run).state, id)) <==> MayPass(s, id)
  {
    ReachableInv(s);
    if Accepted(s, id) {
      assert Exec(s, []) == Next(s);
    } else if MayPass(s, id) {
      var run, t := AddPasses(s, id);
    } else {
      forall run | Exec(s, run).Next?
        ensures !Accepted(Exec(s, run).state, id)
      {
        ShutOutForGood(s, run, id);
      }
    }
  }

  // ----- which runs panic -----

  // Add has read stopped as false and is not delivered, or will when it goes on.
  predicate Slipping(s: State, id: Id) {
    id in s.adds && (InWindow(s.adds[id]) || (!s.g.stopped && s.adds[id].ReadStopped?))
  }

  // StopAndWait has asked for r.stop, or has had it.
  predicate Closing(s: State) { s.g.stopped || !s.lk.writer.NoWriter? }

  ghost predicate NoneSlips(s: State) {
    Closing(s) && forall id :: id in s.adds ==> !Slipping(s, id)
  }

  lemma NoneSlipsOnAdd(s: State, id: Id)
    requires NoneSlips(s) && AddStepOf(s, id).Next?
    ensures NoneSlips(AddStepOf(s, id).state)
  {
  }

  lemma NoneSlipsOnStop(s: State)
    requires StopInv(s) && WriterInv(s) && NoneSlips(s) && StopStepOf(s).Next?
    ensures NoneSlips(StopStepOf(s).state)
  {
  }

  lemma NoneSlipsStays(s: State, a: Action)
    requires StopInv(s) && WriterInv(s) && NoneSlips(s) && Step(s, a).Next?
    ensures NoneSlips(Step(s, a).state)
  {
    if a.AddStep? {
      NoneSlipsOnAdd(s, a.id);
    } else if a.StopStep? {
      NoneSlipsOnStop(s);
    } else {
      OthersLeaveAdds(s, a, Step(s, a).state);
    }
  }

  lemma {:induction false} NoneSlipsNeverPanics(s: State, run: seq<Action>)
    requires Reachable(s) && NoneSlips(s)
    ensures !Exec(s, run).Panic?
    decreases |run|
  {
    if run != [] {
      match Step(s, run[0]) {
        case Next(t) =>
          ReachableInv(s);
          NoneSlipsStays(s, run[0]);
          StepReachable(s, run[0]);
          NoneSlipsNeverPanics(t, run[1..]);
        case Panic(_) =>
          OnlyALateAddPanics(s, run[0]);
        case Blocked =>
      }
    }
  }

  /** While Start waits for a Check that has returned false r.ch stays open, so nothing panics. */
  lemma {:induction false} FailedNeverPanics(s: State, id: Id, run: seq<Action>)
    requires Reachable(s) && Failed(s, id)
    ensures !Exec(s, run).Panic?
    decreases |run|
  {
    if run != [] {
      ReachableInv(s);
      match Step(s, run[0]) {
        case Next(t) =>
          OwedStays(s, run[0], id);
          StepReachable(s, run[0]);
          FailedNeverPanics(t, id, run[1..]);
        case Panic(_) =>
          OwedIsEarly(s, id);
          OnlyALateAddPanics(s, run[0]);
        case Blocked =>
      }
    }
  }

  function StopRank(pc: StopPc): nat {
    match pc
    case WUnlock => 5
    case CancelCtx => 4
    case SpawnWaiter => 3
    case Select => 2
    case CloseCh(_) => 1
    case _ => 0
  }

  /** Once stopped is set, StopAndWait can always run to its end: its context may expire. */
  lemma StopRunsOut(s: State) returns (run: seq<Action>)
    requires StopInv(s) && s.g.stopped
    ensures Exec(s, run).Next?
    ensures var t := Exec(s, run).state;
      && StopInv(t) && t.stop.pc.StopFinished?
      && t.adds == s.adds && t.lk.start == s.lk.start && t.g.started == s.g.started
    decreases StopRank(s.stop.pc), !s.stop.expired
  {
    if s.stop.pc.StopFinished? {
      run := [];
    } else {
      var a := if !s.stop.pc.Select? then StopStep else if s.stop.expired then StopSelectsCtx else StopCtxEnds;
      StopKept(s, a);
      var rest := StopRunsOut(Step(s, a).state);
      ExecOne(s, a, rest);
      run := [a] + rest;
    }
  }

  function AddRank(pc: AddPc): nat {
    match pc
    case AcceptUnlock => 4
    case WantStartLock => 3
    case ReadStarted => 2
    case LateUnlock => 1
    case _ => 0
  }

  /** With r.ch closed, an Add in the window panics as soon as it gets to its send. */
  lemma WindowPanics(s: State, id: Id) returns (run: seq<Action>)
    requires s.g.chClosed && s.g.started
    requires id in s.adds && InWindow(s.adds[id])
    requires s.lk.start == if AddHoldsStart(s.adds[id]) then ByAdd(id) else Free
    ensures Exec(s, run).Panic?
    decreases AddRank(s.adds[id])
  {
    if s.adds[id].Sending? {
      run := [AddStep(id)];
    } else {
      var rest := WindowPanics(Step(s, AddStep(id)).state, id);
      ExecOne(s, AddStep(id), rest);
      run := [AddStep(id)] + rest;
    }
  }

  lemma StoppedPanics(s: State, id: Id) returns (run: seq<Action>)
    requires Reachable(s) && s.g.stopped && Slipping(s, id)
    ensures Exec(s, run).Panic?
  {
    ReachableInv(s);
    var first := StopRunsOut(s);
    var t := Exec(s, first).state;
    // An Add that holds r.start is itself in the window.
    var second := WindowPanics(t, if t.lk.start.ByAdd? then t.lk.start.id else id);
    run := RunThenPanics(s, first, second);
  }

  lemma StepThenPanics(s: State, a: Action, more: seq<Action>) returns (run: seq<Action>)
    requires Step(s, a).Next? && Exec(Step(s, a).state, more).Panic?
    ensures Exec(s, run).Panic?
  {
    ExecOne(s, a, more);
    run := [a] + more;
  }

  lemma RunThenPanics(s: State, first: seq<Action>, more: seq<Action>) returns (run: seq<Action>)
    requires Exec(s, first).Next? && Exec(Exec(s, first).state, more).Panic?
    ensures Exec(s, run).Panic?
  {
    ExecConcat(s, first, more);
    run := first + more;
  }

  lemma StopTakes(s: State) returns (t: State)
    requires s.stop.pc.WantWLock? || s.stop.pc.SetStopped? || (s.stop.pc.AwaitReaders? && s.lk.readers == {})
    ensures StopStepOf(s) == Next(t) && t.adds == s.adds && t.g.stopped == (s.g.stopped || s.stop.pc.SetStopped?)
    ensures s.stop.pc.WantWLock? ==> t.stop.pc.AwaitReaders?
    ensures s.stop.pc.AwaitReaders? ==> t.stop.pc.SetStopped?
  {
    t := StopStepOf(s).state;
  }

  // StopAndWait has locked r.stop.
  lemma LockedPanics(s: State, id: Id) returns (run: seq<Action>)
    requires Reachable(s) && s.stop.pc.SetStopped? && id in s.adds && InWindow(s.adds[id])
    ensures Exec(s, run).Panic?
  {
    var t := StopTakes(s);
    StepReachable(s, StopStep);
    run := StoppedPanics(t, id);
    run := StepThenPanics(s, StopStep, run);
  }

  lemma NoReadersPanics(s: State, id: Id) returns (run: seq<Action>)
    requires Reachable(s) && s.stop.pc.AwaitReaders? && s.lk.readers == {} && id in s.adds && InWindow(s.adds[id])
    ensures Exec(s, run).Panic?
  {
    var t := StopTakes(s);
    StepReachable(s, StopStep);
    run := LockedPanics(t, id);
    run := StepThenPanics(s, StopStep, run);
  }

  // StopAndWait has asked for r.stop.
  lemma ClosingPanics(s: State, id: Id) returns (run: seq<Action>)
    requires Reachable(s) && s.stop.pc.AwaitReaders? && Slipping(s, id)
    ensures Exec(s, run).Panic?
  {
    var first, t := ReadersLeave(s);
    NoReaderReads(t, id);
    run := NoReadersPanics(t, id);
    run := RunThenPanics(s, first, run);
  }

  lemma NoReaderReads(s: State, id: Id)
    requires Reachable(s) && s.lk.readers == {} && id in s.adds
    ensures !s.adds[id].ReadStopped?
  {
    ReachableInv(s);
  }

  lemma {:induction false} FreshNat(used: set<nat>) returns (n: nat)
    ensures forall m :: m in used ==> m < n
    decreases |used|
  {
    n := 0;
    if used != {} {
      var m :| m in used;
      var rest := used - {m};
      n := FreshNat(rest);
      n := if m < n then n else m + 1;
      assert forall k :: k in used ==> k == m || k in rest;
    }
  }

  lemma AddEnters(s: State, id: Id) returns (t: State, u: State)
    requires s.lk.writer.NoWriter? && id !in s.adds
    ensures Step(s, AddCall(id)) == Next(t) && Step(t, AddStep(id)) == Next(u)
    ensures id in u.adds && u.adds[id].ReadStopped? && u.stop == s.stop && u.g == s.g
  {
    t := Step(s, AddCall(id)).state;
    u := Step(t, AddStep(id)).state;
  }

  lemma NobodyWrites(s: State)
    requires Reachable(s) && s.stop.pc.WantWLock?
    ensures s.lk.writer.NoWriter? && !s.g.stopped
  {
    ReachableInv(s);
  }

  // StopAndWait is about to ask for r.stop: an Add called now gets in before it.
  lemma AskingPanics(s: State) returns (run: seq<Action>)
    requires Reachable(s) && s.stop.pc.WantWLock?
    ensures Exec(s, run).Panic?
  {
    var id := FreshNat(s.adds.Keys);
    NobodyWrites(s);
    var t, u := AddEnters(s, id);
    StepReachable(s, AddCall(id));
    StepReachable(t, AddStep(id));
    run := SlippingPanics(u, id);
    run := StepThenPanics(t, AddStep(id), run);
    run := StepThenPanics(s, AddCall(id), run);
  }

  lemma SlippingPanics(s: State, id: Id) returns (run: seq<Action>)
    requires Reachable(s) && s.stop.pc.WantWLock? && Slipping(s, id)
    ensures Exec(s, run).Panic?
  {
    var t := StopTakes(s);
    StepReachable(s, StopStep);
    run := ClosingPanics(t, id);
    run := StepThenPanics(s, StopStep, run);
  }

  lemma StopReturnsFromStart(s: State) returns (t: State)
    requires s.stop.pc.CallingStart? && s.start.pc.Finished?
    ensures Step(s, StopStep) == Next(t) && t.stop.pc.WantWLock?
  {
    t := Step(s, StopStep).state;
  }

  // The body of Start is over, and StopAndWait is at its call.
  lemma CalledPanics(s: State) returns (run: seq<Action>)
    requires Reachable(s) && s.stop.pc.CallingStart? && s.start.pc.Finished?
    ensures Exec(s, run).Panic?
  {
    var t := StopReturnsFromStart(s);
    StepReachable(s, StopStep);
    run := AskingPanics(t);
    run := StepThenPanics(s, StopStep, run);
  }

  lemma EnteredPanics(s: State) returns (run: seq<Action>)
    requires Reachable(s) && s.stop.pc.CallingStart? && !Stuck(s, iset{})
    ensures Exec(s, run).Panic?
  {
    var first, t := StopPassesStart(s, iset{});
    run := CalledPanics(t);
    run := RunThenPanics(s, first, run);
  }

  lemma StopEnters(s: State, c: Caller) returns (t: State, u: State)
    requires s.stop.pc.StopNotEntered? && c !in s.stop.calls
    ensures Step(s, StopCall(c)) == Next(t) && Step(t, StopEnter(c)) == Next(u)
    ensures u == s.(stop := u.stop) && u.stop.pc.CallingStart?
  {
    t := Step(s, StopCall(c)).state;
    u := Step(t, StopEnter(c)).state;
  }

  lemma NotEnteredPanics(s: State) returns (run: seq<Action>)
    requires Reachable(s) && s.stop.pc.StopNotEntered? && !Stuck(s, iset{})
    ensures Exec(s, run).Panic?
  {
    var c := FreshNat(s.stop.calls.Keys);
    var t, u := StopEnters(s, c);
    StepReachable(s, StopCall(c));
    StepReachable(t, StopEnter(c));
    StuckIgnoresStop(s, u, iset{});
    run := EnteredPanics(u);
    run := StepThenPanics(t, StopEnter(c), run);
    run := StepThenPanics(s, StopCall(c), run);
  }

  lemma OpenStages(s: State)
    requires Reachable(s) && !Closing(s)
    ensures s.stop.pc.StopNotEntered? || s.stop.pc.CallingStart? || s.stop.pc.WantWLock?
  {
    ReachableInv(s);
  }

  // Before StopAndWait asks for r.stop, every Add can still get in.
  lemma OpenPanics(s: State) returns (run: seq<Action>)
    requires Reachable(s) && !Closing(s) && !Stuck(s, iset{})
    ensures Exec(s, run).Panic?
  {
    OpenStages(s);
    if s.stop.pc.StopNotEntered? {
      run := NotEnteredPanics(s);
    } else if s.stop.pc.CallingStart? {
      run := EnteredPanics(s);
    } else {
      run := AskingPanics(s);
    }
  }

  /** From a reachable state some continuation panics if and only if no queued Check has returned false and
      either StopAndWait has not yet asked for r.stop, or some Add reads or has read stopped as false and is
      not delivered. */
  lemma PanicPossibleIff(s: State)
    requires Reachable(s)
    ensures (exists run :: Exec(s, run).Panic?) <==> !Stuck(s, iset{}) && !NoneSlips(s)
  {
    ReachableInv(s);
    if NoneSlips(s) {
      forall run
        ensures !Exec(s, run).Panic?
      {
        NoneSlipsNeverPanics(s, run);
      }
    } else if Stuck(s, iset{}) {
      var id :| Owed(s, id) && Failed(s, id);
      forall run
        ensures !Exec(s, run).Panic?
      {
        FailedNeverPanics(s, id, run);
      }
    } else if !Closing(s) {
      var run := OpenPanics(s);
    } else {
      var id :| id in s.adds && Slipping(s, id);
      var run;
      if s.g.stopped {
        run := StoppedPanics(s, id);
      } else if s.stop.pc.AwaitReaders? {
        run := ClosingPanics(s, id);
      } else {
        NoReaderReads(s, id);
        run := LockedPanics(s, id);
      }
    }
  }
}
