/** What the runs of a group look like from outside: the course of each runnable, and the error of Start. */
module GroupTraces {
  import opened Wrappers
  import opened Group
  import opened GroupInvariant
  import opened GroupSafety

  lemma {:induction false} SplitLast(s: State, run: seq<Action>, t: State) returns (u: State)
    requires run != [] && Exec(s, run) == Next(t)
    ensures Exec(s, run[..|run| - 1]) == Next(u) && Step(u, run[|run| - 1]) == Next(t)
    decreases |run|
  {
    if |run| == 1 {
      u := s;
    } else {
      u := SplitLast(Step(s, run[0]).state, run[1..], t);
      assert run[..|run| - 1][1..] == run[1..][..|run| - 2];
    }
  }

  // ----- runnables -----

  // The steps of the runnable id: of its goroutine, and of the owner of errChan when it receives from it.
  predicate IsOf(a: Action, id: Id) { (a.RunnerStep? || a.DrainRunner?) && a.id == id }

  /** The steps of the runnable id, out of an interleaved run. */
  function TraceOf(run: seq<Action>, id: Id): seq<Action> {
    if run == [] then []
    else
      var a := run[|run| - 1];
      TraceOf(run[..|run| - 1], id) + if IsOf(a, id) then [a] else []
  }

  /** The goroutine starts the check; its Start returns, with an error or without; an error, and nothing
      else, is received by the owner of errChan; then Done is called, and nothing follows. */
  predicate InCourse(trace: seq<Action>) {
    && |trace| <= 4
    && (|trace| >= 1 ==> trace[0].RunnerStep?)
    && (|trace| >= 2 ==> trace[1].RunnerStep?)
    && (|trace| >= 3 ==> if trace[1].fails then trace[2].DrainRunner? else trace[2].RunnerStep?)
    && (|trace| >= 4 ==> trace[1].fails && trace[3].RunnerStep?)
  }

  /** All of it, up to Done. */
  predicate Complete(trace: seq<Action>) {
    InCourse(trace) && |trace| >= 3 && (trace[1].fails ==> |trace| == 4)
  }

  // How far the goroutine is after these steps.
  predicate IsAfter(pc: RunnerPc, trace: seq<Action>) {
    match pc
    case SpawnCheck => trace == []
    case Running => |trace| == 1
    case SendErr => |trace| == 2 && trace[1].RunnerStep? && trace[1].fails
    case WgDone => (|trace| == 2 && trace[1].RunnerStep? && !trace[1].fails) || (|trace| == 3 && trace[2].DrainRunner?)
    case RunnerExited => Complete(trace)
  }

  predicate Follows(s: State, id: Id, trace: seq<Action>) {
    InCourse(trace) && if id in s.jobs.runners then IsAfter(s.jobs.runners[id], trace) else trace == []
  }

  lemma RunnerFollows(s: State, id: Id, fails: bool, trace: seq<Action>)
    requires Follows(s, id, trace) && RunnerStepOf(s, id, fails).Next?
    ensures Follows(RunnerStepOf(s, id, fails).state, id, trace + [RunnerStep(id, fails)])
  {
  }

  lemma DrainFollows(s: State, id: Id, trace: seq<Action>)
    requires Follows(s, id, trace) && DrainRunnerOf(s, id).Next?
    ensures Follows(DrainRunnerOf(s, id).state, id, trace + [DrainRunner(id)])
  {
  }

  lemma ReconLeavesRunners(s: State, id: Id)
    requires HeldNotRunning(s) && ReconStepOf(s).Next?
    ensures var t := ReconStepOf(s).state;
      if id in s.jobs.runners then id in t.jobs.runners && t.jobs.runners[id] == s.jobs.runners[id]
      else id in t.jobs.runners ==> t.jobs.runners[id].SpawnCheck?
  {
  }

  lemma OthersLeaveRunners(s: State, a: Action, id: Id)
    requires !a.ReconStep? && !IsOf(a, id) && Step(s, a).Next?
    ensures var t := Step(s, a).state;
      (id in t.jobs.runners <==> id in s.jobs.runners)
      && (id in s.jobs.runners ==> t.jobs.runners[id] == s.jobs.runners[id])
  {
    match a
    case AddStep(_) =>
    case StartStep =>
    case StopStep =>
    case CheckStep(_, _) =>
    case RunnerStep(_, _) =>
    case _ =>
  }

  lemma StepFollows(s: State, a: Action, t: State, id: Id, trace: seq<Action>)
    requires Reachable(s) && Follows(s, id, trace) && Step(s, a) == Next(t)
    ensures Follows(t, id, trace + if IsOf(a, id) then [a] else [])
  {
    if a.RunnerStep? && a.id == id {
      RunnerFollows(s, id, a.fails, trace);
    } else if a.DrainRunner? && a.id == id {
      DrainFollows(s, id, trace);
    } else {
      assert trace + [] == trace;
      if a.ReconStep? {
        NotRunning(s);
        ReconLeavesRunners(s, id);
      } else {
        OthersLeaveRunners(s, a, id);
      }
    }
  }

  lemma {:induction false} RunFollows(run: seq<Action>, s: State, id: Id)
    requires Exec(INIT, run) == Next(s)
    ensures Follows(s, id, TraceOf(run, id))
    decreases |run|
  {
    if run != [] {
      var most, a := run[..|run| - 1], run[|run| - 1];
      var u := SplitLast(INIT, run, s);
      RunFollows(most, u, id);
      StepFollows(u, a, s, id, TraceOf(most, id));
    }
  }

  lemma NotRunning(s: State)
    requires Reachable(s)
    ensures HeldNotRunning(s)
  {
    ReachableInv(s);
    FlowKeepsHeldFresh(s);
  }

  /** In every run each runnable goes through its course: in particular, when its Start returns an error, that
      error is received exactly once before Done is called, and nothing is received from it otherwise. Only a
      launched runnable has a step, and it has exited exactly when its course is complete. */
  lemma RunnableCourse(run: seq<Action>, s: State, id: Id)
    requires Exec(INIT, run) == Next(s)
    ensures InCourse(TraceOf(run, id)) && (TraceOf(run, id) != [] ==> id in s.h.launched)
    ensures id in s.h.launched ==> (id !in LiveRunners(s.jobs.runners) <==> Complete(TraceOf(run, id)))
  {
    RunFollows(run, s, id);
    ReachableInv(s);
  }

  /** When StopAndWait leaves through done, every launched runnable has gone through its whole course, so the
      error of each that failed has been received. */
  lemma ErrorsAreDelivered(run: seq<Action>, s: State, id: Id)
    requires Exec(INIT, run) == Next(s) && StoppedThroughDone(s) && id in s.h.launched
    ensures Complete(TraceOf(run, id))
    ensures TraceOf(run, id)[1].fails ==> DrainRunner(id) in run
  {
    RunnableCourse(run, s, id);
    ReachableInv(s);
    TraceIsInRun(run, id, 2);
  }

  lemma {:induction false} TraceIsInRun(run: seq<Action>, id: Id, i: nat)
    requires i < |TraceOf(run, id)|
    ensures TraceOf(run, id)[i] in run && IsOf(TraceOf(run, id)[i], id)
    decreases |run|
  {
    var most := run[..|run| - 1];
    if i < |TraceOf(most, id)| {
      TraceIsInRun(most, id, i);
      assert TraceOf(run, id)[i] == TraceOf(most, id)[i];
    }
  }

  // ----- the error of Start -----

  // The context passed its deadline, and the select loop of Start took notice.
  predicate DeadlineSeen(run: seq<Action>) {
    exists i, j :: 0 <= i < j < |run| && run[i] == StartCtxEnds(DeadlineExceeded) && run[j] == StartSelectsCtx
  }

  // What the state of Start tells about the run that led to it.
  ghost predicate StartTells(run: seq<Action>, s: State) {
    && (s.start.ctx.DeadlineExceeded? <==> StartCtxEnds(DeadlineExceeded) in run)
    && (s.start.retErr <==> DeadlineSeen(run))
    && (s.start.pc.NotEntered? ==> s.start.owner.None?)
    && (forall c: Caller :: s.start.owner == Some(c) <==> StartEnter(c) in run)
    && (forall c :: c in s.start.calls && s.start.calls[c].Returned? ==>
          (s.start.calls[c].failed <==> s.start.owner == Some(c) && s.start.retErr))
  }

  lemma StartMoves(s: State, a: Action, t: State)
    requires CallInv(s) && StartInv(s) && Step(s, a) == Next(t)
    ensures t.start.ctx == if a.StartCtxEnds? then a.reason else s.start.ctx
    ensures a.StartCtxEnds? ==> s.start.ctx.Live?
    ensures t.start.retErr <==> s.start.retErr || (a.StartSelectsCtx? && s.start.ctx.DeadlineExceeded?)
    ensures t.start.owner == if a.StartEnter? then Some(a.c) else s.start.owner
    ensures a.StartEnter? ==> s.start.pc.NotEntered? && !t.start.pc.NotEntered?
    ensures t.start.pc.NotEntered? ==> s.start.pc.NotEntered?
    ensures a.StartSelectsCtx? ==> !s.start.pc.Finished?
    ensures s.start.pc.Finished? ==> t.start.pc.Finished?
    ensures forall c :: c in t.start.calls && t.start.calls[c].Returned? ==>
      || (c in s.start.calls && t.start.calls[c] == s.start.calls[c])
      || (s.start.pc.Finished? && t.start.calls[c] == Returned(s.start.owner == Some(c) && s.start.retErr))
  {
    match a
    case StartStep =>
    case CheckStep(_, _) =>
    case StopStep =>
    case StartSelectsCtx =>
    case _ =>
  }

  lemma DeadlineSeenMore(run: seq<Action>, a: Action)
    ensures DeadlineSeen(run + [a]) <==>
      DeadlineSeen(run) || (a.StartSelectsCtx? && StartCtxEnds(DeadlineExceeded) in run)
  {
    var more := run + [a];
    if DeadlineSeen(run) {
      var i, j :| 0 <= i < j < |run| && run[i] == StartCtxEnds(DeadlineExceeded) && run[j] == StartSelectsCtx;
      assert more[i] == run[i] && more[j] == run[j];
    } else if a.StartSelectsCtx? && StartCtxEnds(DeadlineExceeded) in run {
      var i :| 0 <= i < |run| && run[i] == StartCtxEnds(DeadlineExceeded);
      assert more[i] == run[i] && more[|run|] == StartSelectsCtx;
    }
  }

  lemma StartTellsMore(run: seq<Action>, s: State, a: Action, t: State)
    requires CallInv(s) && StartInv(s) && StartTells(run, s) && Step(s, a) == Next(t)
    ensures StartTells(run + [a], t)
  {
    StartMoves(s, a, t);
    DeadlineSeenMore(run, a);
  }

  lemma {:induction false} RunTells(run: seq<Action>, s: State)
    requires Exec(INIT, run) == Next(s)
    ensures StartTells(run, s)
    decreases |run|
  {
    if run != [] {
      var most := run[..|run| - 1];
      var u := SplitLast(INIT, run, s);
      RunTells(most, u);
      ReachableInv(u);
      StartTellsMore(most, u, run[|run| - 1], s);
      assert run == most + [run[|run| - 1]];
    }
  }

  /** A call of Start returns an error if and only if it is the call that ran the body, the context passed its
      deadline and the select loop took notice; every other call returns nil. */
  lemma StartFailsIff(run: seq<Action>, s: State, c: Caller)
    requires Exec(INIT, run) == Next(s) && c in s.start.calls && s.start.calls[c].Returned?
    ensures s.start.calls[c].failed <==> StartEnter(c) in run && DeadlineSeen(run)
  {
    RunTells(run, s);
  }
}
