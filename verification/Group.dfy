/** The start/stop protocol of a runnable group as a state machine.

    A state holds the fields of the group (locks, flags, channels, WaitGroup, queue), one program
    counter per goroutine, and a history. One action is one atomic step of one goroutine; an action
    that is blocked in a state has no successor there. Sends on the unbuffered channels are
    rendezvous: the sender's step moves the receiver too.
 */
module Group {
  import opened Wrappers

  // Every call of Add allocates its own readyRunnable, so a runnable is named by its Add call.
  type Id = nat

  // External callers of Start and of StopAndWait.
  type Caller = nat

  datatype AddPc =
    | WantStopRLock    // r.stop.RLock()
    | ReadStopped      // holds stop for reading
    | RejectUnlock     // saw stopped == true, still holds stop
    | AcceptUnlock     // saw stopped == false, still holds stop
    | WantStartLock    // r.start.Lock()
    | ReadStarted      // holds start
    | QueuedUnlock     // appended to the queue, still holds start
    | LateUnlock       // saw started == true, still holds start
    | Sending          // r.ch <- readyRunnable
    | ReturnedNil
    | ReturnedStopped  // returned errRunnableGroupStopped

  datatype StartPc =
    | NotEntered
    | SpawnReconcile
    | WantLock
    | SetStarted             // holds start
    | SendQueued(next: nat)  // holds start; queue[next] is the next item to send
    | UnlockStart            // holds start
    | TestEmpty
    | AwaitReady             // the select loop
    | CloseReady             // the deferred close(r.startReadyCh)
    | Finished

  datatype ReconPc =
    | NotSpawned
    | Receiving
    | WantRLock(id: Id)
    | ReadStop(id: Id)    // holds stop for reading, as do the next four
    | SendDrop(id: Id)    // r.errChan <- errRunnableGroupStopped
    | DropUnlock
    | WillAdmit(id: Id)   // saw stopped == false
    | Admitted(id: Id)    // wg.Add(1) done
    | Spawning(id: Id)    // released stop, next is the go statement
    | Exited

  datatype RunnerPc = SpawnCheck | Running | SendErr | WgDone | RunnerExited

  datatype CheckPc = Checking | Signalling | CheckFailed | CheckDone

  datatype StopPc =
    | StopNotEntered
    | CallingStart
    | WantWLock
    | AwaitReaders        // announced, waiting for the readers to leave
    | SetStopped          // holds stop for writing
    | WUnlock             // holds stop for writing
    | CancelCtx
    | SpawnWaiter
    | Select
    | CloseCh(viaDone: bool)  // the deferred close(r.ch)
    | StopFinished(viaDone: bool)

  datatype WaiterPc = WaiterNotSpawned | Waiting | WaitReturned

  datatype CallPc = Calling | Returned(failed: bool)

  datatype StartLock = Free | ByAdd(id: Id) | ByStart

  datatype Reader = AddReader(id: Id) | ReconReader

  // sync.RWMutex: an announced writer already keeps new readers out.
  datatype Writer = NoWriter | Pending | Held

  datatype Ctx = Live | Canceled | DeadlineExceeded

  // The ways in which the runtime would panic.
  datatype Cause =
    | AddSentOnClosed(id: Id)
    | StartSentOnClosed
    | SignalledOnClosed(id: Id)
    | WaitGroupReused
    | WaitGroupNegative

  datatype Locks = Locks(
    start: StartLock,      // r.start
    readers: set<Reader>,  // r.stop
    writer: Writer)

  datatype Fields = Fields(
    started: bool,
    queue: seq<Id>,    // startQueue
    signal: set<Id>,   // the runnables whose signalReady flag is set
    readyClosed: bool,
    stopped: bool,
    chClosed: bool,
    cancelled: bool,
    wg: nat)

  // The body run by startOnce, and the calls of Start.
  datatype Starting = Starting(
    pc: StartPc,
    owner: Option<Caller>,  // who runs the body: an external caller, or None for StopAndWait
    ctx: Ctx,
    retErr: bool,
    calls: map<Caller, CallPc>)

  // The body run by stopOnce, the goroutine it starts, and the calls of StopAndWait.
  datatype Stopping = Stopping(
    pc: StopPc,
    expired: bool,
    waiter: WaiterPc,
    calls: map<Caller, CallPc>)

  datatype Jobs = Jobs(runners: map<Id, RunnerPc>, checks: map<Id, CheckPc>)

  datatype History = History(
    initial: seq<Id>,   // the queue when the sending loop began
    launched: seq<Id>,
    dropped: seq<Id>,
    acked: set<Id>)     // the runnables whose ready signal Start has received

  datatype State = State(
    lk: Locks,
    g: Fields,
    adds: map<Id, AddPc>,
    start: Starting,
    recon: ReconPc,
    jobs: Jobs,
    stop: Stopping,
    h: History)

  const INIT: State := State(
    Locks(Free, {}, NoWriter),
    Fields(false, [], {}, false, false, false, false, 0),
    map[],
    Starting(NotEntered, None, Live, false, map[]),
    NotSpawned,
    Jobs(map[], map[]),
    Stopping(StopNotEntered, false, WaiterNotSpawned, map[]),
    History([], [], [], {}))

  // The outcome of trying a step: the goroutine is blocked, it moves, or the runtime panics.
  datatype Outcome = Blocked | Next(state: State) | Panic(cause: Cause)

  datatype Action =
    | AddCall(id: Id)
    | AddStep(id: Id)
    | StartCall(c: Caller)
    | StartEnter(c: Caller)
    | StartReturn(c: Caller)
    | StartStep
    | StartCtxEnds(reason: Ctx)
    | StartSelectsCtx
    | ReconStep
    | DrainRecon                           // the owner of errChan receives from reconcile
    | RunnerStep(id: Id, fails: bool)
    | DrainRunner(id: Id)                  // the owner of errChan receives from a runner
    | CheckStep(id: Id, ready: bool)
    | StopCall(c: Caller)
    | StopEnter(c: Caller)
    | StopReturn(c: Caller)
    | StopStep
    | StopCtxEnds
    | StopSelectsCtx
    | WaiterStep

  /** The queue without the first occurrence of id: append(q[:i], q[i+1:]...) at its index. */
  function RemoveFirst(q: seq<Id>, id: Id): seq<Id> {
    if q == [] then []
    else if q[0] == id then q[1..]
    else [q[0]] + RemoveFirst(q[1..], id)
  }

  // ----- what the critical sections do to the fields -----

  function Enqueue(g: Fields, id: Id): Fields { g.(queue := g.queue + [id]) }

  function MarkSent(g: Fields, id: Id): Fields { g.(signal := g.signal + {id}) }

  function TakeReady(g: Fields, id: Id): Fields { g.(queue := RemoveFirst(g.queue, id)) }

  function Admit(g: Fields): Fields { g.(wg := g.wg + 1) }

  function Release(g: Fields): Fields
    requires g.wg > 0
  {
    g.(wg := g.wg - 1)
  }

  // ----- the steps -----

  function AddStepOf(s: State, id: Id): Outcome {
    if id !in s.adds then Blocked
    else match s.adds[id]
      case WantStopRLock =>
        if s.lk.writer.NoWriter?
        then Next(s.(lk := s.lk.(readers := s.lk.readers + {AddReader(id)}), adds := s.adds[id := ReadStopped]))
        else Blocked
      case ReadStopped =>
        Next(s.(adds := s.adds[id := if s.g.stopped then RejectUnlock else AcceptUnlock]))
      case RejectUnlock =>
        Next(s.(lk := s.lk.(readers := s.lk.readers - {AddReader(id)}), adds := s.adds[id := ReturnedStopped]))
      case AcceptUnlock =>
        Next(s.(lk := s.lk.(readers := s.lk.readers - {AddReader(id)}), adds := s.adds[id := WantStartLock]))
      case WantStartLock =>
        if s.lk.start.Free?
        then Next(s.(lk := s.lk.(start := ByAdd(id)), adds := s.adds[id := ReadStarted]))
        else Blocked
      case ReadStarted =>
        if !s.g.started
        then Next(s.(g := Enqueue(s.g, id), adds := s.adds[id := QueuedUnlock]))
        else Next(s.(adds := s.adds[id := LateUnlock]))
      case QueuedUnlock => Next(s.(lk := s.lk.(start := Free), adds := s.adds[id := ReturnedNil]))
      case LateUnlock => Next(s.(lk := s.lk.(start := Free), adds := s.adds[id := Sending]))
      case Sending =>
        if s.g.chClosed then Panic(AddSentOnClosed(id))
        else if s.recon.Receiving? then Next(s.(recon := WantRLock(id), adds := s.adds[id := ReturnedNil]))
        else Blocked
      case ReturnedNil => Blocked
      case ReturnedStopped => Blocked
  }

  function StartStepOf(s: State): Outcome {
    match s.start.pc
    case NotEntered => Blocked
    case SpawnReconcile => Next(s.(recon := Receiving, start := s.start.(pc := WantLock)))
    case WantLock =>
      if s.lk.start.Free?
      then Next(s.(lk := s.lk.(start := ByStart), start := s.start.(pc := SetStarted)))
      else Blocked
    case SetStarted =>
      Next(s.(g := s.g.(started := true), h := s.h.(initial := s.g.queue), start := s.start.(pc := SendQueued(0))))
    case SendQueued(n) =>
      if n >= |s.g.queue| then Next(s.(start := s.start.(pc := UnlockStart)))
      else if s.g.chClosed then Panic(StartSentOnClosed)
      else if s.recon.Receiving? then
        Next(s.(recon := WantRLock(s.g.queue[n]),
                g := MarkSent(s.g, s.g.queue[n]),
                start := s.start.(pc := SendQueued(n + 1))))
      else Blocked
    case UnlockStart => Next(s.(lk := s.lk.(start := Free), start := s.start.(pc := TestEmpty)))
    case TestEmpty => Next(s.(start := s.start.(pc := if s.g.queue == [] then CloseReady else AwaitReady)))
    case AwaitReady => Blocked
    case CloseReady => Next(s.(g := s.g.(readyClosed := true), start := s.start.(pc := Finished)))
    case Finished => Blocked
  }

  // A done context does not end the loop: it only sets the error that Start will return.
  function StartSelectsCtxOf(s: State): Outcome {
    if s.start.pc.AwaitReady? && !s.start.ctx.Live?
    then Next(s.(start := s.start.(retErr := s.start.retErr || s.start.ctx.DeadlineExceeded?)))
    else Blocked
  }

  function ReconStepOf(s: State): Outcome {
    match s.recon
    case NotSpawned => Blocked
    case Receiving => if s.g.chClosed then Next(s.(recon := Exited)) else Blocked
    case WantRLock(id) =>
      if s.lk.writer.NoWriter?
      then Next(s.(lk := s.lk.(readers := s.lk.readers + {ReconReader}), recon := ReadStop(id)))
      else Blocked
    case ReadStop(id) => Next(s.(recon := if s.g.stopped then SendDrop(id) else WillAdmit(id)))
    case SendDrop(_) => Blocked
    case DropUnlock => Next(s.(lk := s.lk.(readers := s.lk.readers - {ReconReader}), recon := Receiving))
    case WillAdmit(id) =>
      if !s.stop.waiter.WaiterNotSpawned? then Panic(WaitGroupReused)
      else Next(s.(g := Admit(s.g), recon := Admitted(id)))
    case Admitted(id) =>
      Next(s.(lk := s.lk.(readers := s.lk.readers - {ReconReader}), recon := Spawning(id)))
    case Spawning(id) =>
      Next(s.(h := s.h.(launched := s.h.launched + [id]),
              jobs := s.jobs.(runners := s.jobs.runners[id := SpawnCheck]),
              recon := Receiving))
    case Exited => Blocked
  }

  function DrainReconOf(s: State): Outcome {
    if s.recon.SendDrop?
    then Next(s.(h := s.h.(dropped := s.h.dropped + [s.recon.id]), recon := DropUnlock))
    else Blocked
  }

  function RunnerStepOf(s: State, id: Id, fails: bool): Outcome {
    if id !in s.jobs.runners then Blocked
    else match s.jobs.runners[id]
      case SpawnCheck =>
        Next(s.(jobs := Jobs(s.jobs.runners[id := Running], s.jobs.checks[id := Checking])))
      case Running =>
        Next(s.(jobs := s.jobs.(runners := s.jobs.runners[id := if fails then SendErr else WgDone])))
      case SendErr => Blocked
      case WgDone =>
        if s.g.wg == 0 then Panic(WaitGroupNegative)
        else Next(s.(g := Release(s.g),
                     jobs := s.jobs.(runners := s.jobs.runners[id := RunnerExited])))
      case RunnerExited => Blocked
  }

  function DrainRunnerOf(s: State, id: Id): Outcome {
    if id in s.jobs.runners && s.jobs.runners[id].SendErr?
    then Next(s.(jobs := s.jobs.(runners := s.jobs.runners[id := WgDone])))
    else Blocked
  }

  function CheckStepOf(s: State, id: Id, ready: bool): Outcome {
    if id !in s.jobs.checks then Blocked
    else match s.jobs.checks[id]
      case Checking =>
        var pc := if !ready then CheckFailed else if id in s.g.signal then Signalling else CheckDone;
        Next(s.(jobs := s.jobs.(checks := s.jobs.checks[id := pc])))
      case Signalling =>
        if s.g.readyClosed then Panic(SignalledOnClosed(id))
        else if s.start.pc.AwaitReady? then
          var g := TakeReady(s.g, id);
          Next(s.(g := g,
                  h := s.h.(acked := s.h.acked + {id}),
                  jobs := s.jobs.(checks := s.jobs.checks[id := CheckDone]),
                  start := s.start.(pc := if g.queue == [] then CloseReady else AwaitReady)))
        else Blocked
      case CheckFailed => Blocked
      case CheckDone => Blocked
  }

  function StopStepOf(s: State): Outcome {
    match s.stop.pc
    case StopNotEntered => Blocked
    case CallingStart =>
      if s.start.pc.NotEntered? then Next(s.(start := s.start.(pc := SpawnReconcile)))
      else if s.start.pc.Finished? then Next(s.(stop := s.stop.(pc := WantWLock)))
      else Blocked
    case WantWLock => Next(s.(lk := s.lk.(writer := Pending), stop := s.stop.(pc := AwaitReaders)))
    case AwaitReaders =>
      if s.lk.readers == {}
      then Next(s.(lk := s.lk.(writer := Held), stop := s.stop.(pc := SetStopped)))
      else Blocked
    case SetStopped => Next(s.(g := s.g.(stopped := true), stop := s.stop.(pc := WUnlock)))
    case WUnlock => Next(s.(lk := s.lk.(writer := NoWriter), stop := s.stop.(pc := CancelCtx)))
    case CancelCtx => Next(s.(g := s.g.(cancelled := true), stop := s.stop.(pc := SpawnWaiter)))
    case SpawnWaiter => Next(s.(stop := s.stop.(waiter := Waiting, pc := Select)))
    case Select => if s.stop.waiter.WaitReturned? then Next(s.(stop := s.stop.(pc := CloseCh(true)))) else Blocked
    case CloseCh(via) => Next(s.(g := s.g.(chClosed := true), stop := s.stop.(pc := StopFinished(via))))
    case StopFinished(_) => Blocked
  }

  /** The steps of the environment of the two bodies: calls, their returns, contexts, and the waiter. */
  function CallStepOf(s: State, a: Action): Outcome {
    match a
    case AddCall(id) => if id in s.adds then Blocked else Next(s.(adds := s.adds[id := WantStopRLock]))
    case StartCall(c) =>
      if c in s.start.calls then Blocked
      else Next(s.(start := s.start.(calls := s.start.calls[c := Calling])))
    case StartEnter(c) =>
      if c in s.start.calls && s.start.calls[c].Calling? && s.start.pc.NotEntered?
      then Next(s.(start := s.start.(pc := SpawnReconcile, owner := Some(c))))
      else Blocked
    case StartReturn(c) =>
      // The error variable belongs to the call that runs the body; every other call returns nil.
      if c in s.start.calls && s.start.calls[c].Calling? && s.start.pc.Finished?
      then Next(s.(start := s.start.(calls :=
        s.start.calls[c := Returned(s.start.owner == Some(c) && s.start.retErr)])))
      else Blocked
    case StartCtxEnds(reason) =>
      if s.start.ctx.Live? then Next(s.(start := s.start.(ctx := reason))) else Blocked
    case StopCall(c) =>
      if c in s.stop.calls then Blocked
      else Next(s.(stop := s.stop.(calls := s.stop.calls[c := Calling])))
    case StopEnter(c) =>
      if c in s.stop.calls && s.stop.calls[c].Calling? && s.stop.pc.StopNotEntered?
      then Next(s.(stop := s.stop.(pc := CallingStart)))
      else Blocked
    case StopReturn(c) =>
      if c in s.stop.calls && s.stop.calls[c].Calling? && s.stop.pc.StopFinished?
      then Next(s.(stop := s.stop.(calls := s.stop.calls[c := Returned(false)])))
      else Blocked
    case StopCtxEnds => Next(s.(stop := s.stop.(expired := true)))
    case StopSelectsCtx =>
      if s.stop.pc.Select? && s.stop.expired then Next(s.(stop := s.stop.(pc := CloseCh(false)))) else Blocked
    case WaiterStep =>
      if s.stop.waiter.Waiting? && s.g.wg == 0
      then Next(s.(stop := s.stop.(waiter := WaitReturned)))
      else Blocked
    case _ => Blocked
  }

  /** What happens when the goroutine named by action a tries its next step in s. */
  function Step(s: State, a: Action): Outcome {
    match a
    case AddStep(id) => AddStepOf(s, id)
    case StartStep => StartStepOf(s)
    case StartSelectsCtx => StartSelectsCtxOf(s)
    case ReconStep => ReconStepOf(s)
    case DrainRecon => DrainReconOf(s)
    case RunnerStep(id, fails) => RunnerStepOf(s, id, fails)
    case DrainRunner(id) => DrainRunnerOf(s, id)
    case CheckStep(id, ready) => CheckStepOf(s, id, ready)
    case StopStep => StopStepOf(s)
    case _ => CallStepOf(s, a)
  }

  /** The outcome of a whole run: Blocked when some action of it is not possible. */
  function Exec(s: State, run: seq<Action>): Outcome
    decreases |run|
  {
    if run == [] then Next(s)
    else match Step(s, run[0])
      case Next(t) => Exec(t, run[1..])
      case Panic(cause) => if |run| == 1 then Panic(cause) else Blocked
      case Blocked => Blocked
  }

  ghost predicate Reachable(s: State) {
    exists run :: Exec(INIT, run) == Next(s)
  }

  lemma {:induction false} ExecConcat(s: State, first: seq<Action>, second: seq<Action>)
    requires Exec(s, first).Next?
    ensures Exec(s, first + second) == Exec(Exec(s, first).state, second)
    decreases |first|
  {
    if first == [] {
      assert first + second == second;
    } else {
      assert (first + second)[0] == first[0];
      assert (first + second)[1..] == first[1..] + second;
      ExecConcat(Step(s, first[0]).state, first[1..], second);
    }
  }

  lemma ExecOne(s: State, a: Action, rest: seq<Action>)
    requires Step(s, a).Next?
    ensures Exec(s, [a] + rest) == Exec(Step(s, a).state, rest)
  {
    assert ([a] + rest)[1..] == rest;
  }

  lemma StepReachable(s: State, a: Action)
    requires Reachable(s) && Step(s, a).Next?
    ensures Reachable(Step(s, a).state)
  {
    var run :| Exec(INIT, run) == Next(s);
    ExecConcat(INIT, run, [a]);
    assert Exec(s, [a]) == Next(Step(s, a).state) by {
      assert [a][1..] == [];
    }
    assert Exec(INIT, run + [a]) == Next(Step(s, a).state);
  }

  /** One more step of the run that leads to s. */
  lemma Extend(run: seq<Action>, s: State, a: Action) returns (run': seq<Action>, t: State)
    requires Exec(INIT, run) == Next(s) && Step(s, a).Next?
    ensures run' == run + [a] && t == Step(s, a).state && Exec(INIT, run') == Next(t)
  {
    run', t := run + [a], Step(s, a).state;
    ExecConcat(INIT, run, [a]);
    ExecOne(s, a, []);
    assert [a] + [] == [a];
  }
}
