/** The inductive invariant of the group protocol and its preservation by every step. */
module GroupInvariant {
  import opened Wrappers
  import opened Group

  // ----- program counter classes -----

  predicate AddHoldsStart(pc: AddPc) { pc.ReadStarted? || pc.QueuedUnlock? || pc.LateUnlock? }

  predicate AddHoldsStop(pc: AddPc) { pc.ReadStopped? || pc.RejectUnlock? || pc.AcceptUnlock? }

  // The runnable has been put into the queue or handed to reconcile.
  predicate Delivered(pc: AddPc) { pc.QueuedUnlock? || pc.ReturnedNil? }

  // Past its check of stopped, not yet delivered.
  predicate InWindow(pc: AddPc) {
    pc.AcceptUnlock? || pc.WantStartLock? || pc.ReadStarted? || pc.LateUnlock? || pc.Sending?
  }

  predicate StartHoldsLock(pc: StartPc) { pc.SetStarted? || pc.SendQueued? || pc.UnlockStart? }

  predicate BeforeSends(pc: StartPc) {
    pc.NotEntered? || pc.SpawnReconcile? || pc.WantLock? || pc.SetStarted?
  }

  predicate AfterUnlock(pc: StartPc) {
    pc.TestEmpty? || pc.AwaitReady? || pc.CloseReady? || pc.Finished?
  }

  predicate ReconHoldsStop(pc: ReconPc) {
    pc.ReadStop? || pc.SendDrop? || pc.DropUnlock? || pc.WillAdmit? || pc.Admitted?
  }

  predicate StopSet(pc: StopPc) { StopCancelled(pc) || pc.WUnlock? || pc.CancelCtx? }

  predicate StopCancelled(pc: StopPc) { StopWaits(pc) || pc.SpawnWaiter? }

  predicate StopWaits(pc: StopPc) { pc.Select? || pc.CloseCh? || pc.StopFinished? }

  // ----- where a runnable is -----

  /** What reconcile has received and neither launched nor dropped. */
  function HeldBy(pc: ReconPc): seq<Id> {
    match pc
    case WantRLock(id) => [id]
    case ReadStop(id) => [id]
    case SendDrop(id) => [id]
    case WillAdmit(id) => [id]
    case Admitted(id) => [id]
    case Spawning(id) => [id]
    case _ => []
  }

  /** The registered runnables that Start has not sent yet. */
  function Unsent(pc: StartPc, queue: seq<Id>): seq<Id> {
    if BeforeSends(pc) then queue
    else if pc.SendQueued? && pc.next <= |queue| then queue[pc.next..]
    else []
  }

  /** Every runnable on its way from the queue, or from a late Add, to its launch or its drop. */
  datatype Pipe = Pipe(unsent: seq<Id>, held: seq<Id>, launched: seq<Id>, dropped: seq<Id>)

  function PipeOf(s: State): Pipe {
    Pipe(Unsent(s.start.pc, s.g.queue), HeldBy(s.recon), s.h.launched, s.h.dropped)
  }

  function Bag(p: Pipe): multiset<Id> {
    multiset(p.unsent) + multiset(p.held) + multiset(p.launched) + multiset(p.dropped)
  }

  predicate DeliveredIn(adds: map<Id, AddPc>, id: Id) {
    id in adds && Delivered(adds[id])
  }

  /** The elements of q that are outside gone, in the order of q. */
  function Remaining(q: seq<Id>, gone: set<Id>): seq<Id> {
    if q == [] then []
    else if q[0] in gone then Remaining(q[1..], gone)
    else [q[0]] + Remaining(q[1..], gone)
  }

  ghost predicate NoDuplicates(q: seq<Id>) {
    forall i, j :: 0 <= i < j < |q| ==> q[i] != q[j]
  }

  function LiveRunners(runners: map<Id, RunnerPc>): set<Id> {
    set id | id in runners && !runners[id].RunnerExited?
  }

  // ----- the invariant -----

  ghost predicate StartLockInv(s: State) {
    && (s.lk.start.ByStart? <==> StartHoldsLock(s.start.pc))
    && (s.lk.start.ByAdd? ==> s.lk.start.id in s.adds)
    && (forall id :: id in s.adds ==> (s.lk.start == ByAdd(id) <==> AddHoldsStart(s.adds[id])))
  }

  ghost predicate ReaderInv(s: State) {
    && (forall r :: r in s.lk.readers && r.AddReader? ==> r.id in s.adds)
    && (forall id :: id in s.adds ==> (AddReader(id) in s.lk.readers <==> AddHoldsStop(s.adds[id])))
    && (ReconReader in s.lk.readers <==> ReconHoldsStop(s.recon))
  }

  ghost predicate WriterInv(s: State) {
    && (s.lk.writer.Pending? <==> s.stop.pc.AwaitReaders?)
    && (s.lk.writer.Held? <==> s.stop.pc.SetStopped? || s.stop.pc.WUnlock?)
    && (s.lk.writer.Held? ==> s.lk.readers == {})
  }

  ghost predicate StopInv(s: State) {
    && (s.g.stopped <==> StopSet(s.stop.pc))
    && (!s.stop.pc.StopNotEntered? && !s.stop.pc.CallingStart? ==> s.start.pc.Finished?)
    && (s.g.chClosed <==> s.stop.pc.StopFinished?)
    && (s.g.cancelled <==> StopCancelled(s.stop.pc))
    && (s.stop.waiter.WaiterNotSpawned? <==> !StopWaits(s.stop.pc))
    && (s.stop.pc == CloseCh(false) || s.stop.pc == StopFinished(false) ==> s.stop.expired)
    && (s.stop.pc == CloseCh(true) || s.stop.pc == StopFinished(true) ==> s.stop.waiter.WaitReturned?)
    && (forall c :: c in s.stop.calls && s.stop.calls[c].Returned? ==> s.stop.pc.StopFinished?)
  }

  // What holding r.stop for reading protects: the value of stopped that was read.
  ghost predicate ReadInv(s: State) {
    && (s.recon.WillAdmit? || s.recon.Admitted? ==> !s.g.stopped)
    && (s.recon.SendDrop? || s.recon.DropUnlock? ==> s.g.stopped)
    && (s.h.dropped != [] ==> s.g.stopped)
    && (s.recon.Exited? ==> s.g.chClosed)
    && (forall id :: id in s.adds ==> (s.adds[id].AcceptUnlock? ==> !s.g.stopped))
    && (forall id :: id in s.adds ==> (s.adds[id].RejectUnlock? || s.adds[id].ReturnedStopped? ==> s.g.stopped))
  }

  ghost predicate StartInv(s: State) {
    && (s.g.started <==> !BeforeSends(s.start.pc))
    && (s.recon.NotSpawned? <==> s.start.pc.NotEntered? || s.start.pc.SpawnReconcile?)
    && (s.g.readyClosed <==> s.start.pc.Finished?)
    && (s.start.pc.SendQueued? ==> s.start.pc.next <= |s.g.queue|)
    && (s.start.pc.AwaitReady? ==> s.g.queue != [])
    && (forall id :: id in s.adds ==> (s.adds[id].LateUnlock? || s.adds[id].Sending? ==> AfterUnlock(s.start.pc)))
    && (forall id :: id in s.adds ==> (s.adds[id].QueuedUnlock? ==> BeforeSends(s.start.pc)))
  }

  // What the calls of Start have returned.
  ghost predicate CallInv(s: State) {
    && (s.start.retErr ==> s.start.ctx.DeadlineExceeded?)
    && (forall c :: c in s.start.calls && s.start.calls[c].Returned? ==> s.start.pc.Finished?)
    && (forall c :: c in s.start.calls && s.start.calls[c] == Returned(true) ==>
          s.start.owner == Some(c) && s.start.retErr)
  }

  ghost predicate FlowInv(s: State) {
    forall id :: Bag(PipeOf(s))[id] == if DeliveredIn(s.adds, id) then 1 else 0
  }

  /** What reconcile has received, up to the first drop. */
  function Handled(s: State): seq<Id> {
    s.h.launched + HeldBy(s.recon)
  }

  ghost predicate OrderInv(s: State) {
    && (BeforeSends(s.start.pc) ==> Handled(s) == [])
    && (s.start.pc.SendQueued? && s.start.pc.next <= |s.h.initial|
        ==> Handled(s) == s.h.initial[..s.start.pc.next])
    && (s.start.pc.UnlockStart? || AfterUnlock(s.start.pc) ==> s.h.initial <= Handled(s))
    && (s.start.pc.CloseReady? || s.start.pc.Finished? ==> s.h.initial <= s.h.launched && s.g.queue == [])
  }

  function Elements(q: seq<Id>): set<Id> {
    set id | id in q
  }

  function Sent(pc: StartPc, initial: seq<Id>): seq<Id> {
    if pc.SendQueued? && pc.next <= |initial| then initial[..pc.next] else initial
  }

  ghost predicate AckInv(s: State) {
    && NoDuplicates(s.h.initial)
    && (BeforeSends(s.start.pc) ==> s.h.initial == [] && s.h.acked == {})
    && (s.g.started ==> s.g.queue == Remaining(s.h.initial, s.h.acked))
    && (s.start.pc.SendQueued? || s.start.pc.UnlockStart? || s.start.pc.TestEmpty? ==> s.h.acked == {})
    && s.g.signal == Elements(Sent(s.start.pc, s.h.initial))
    && (forall id :: id in s.h.acked ==> id in s.h.initial && id in s.jobs.checks && s.jobs.checks[id].CheckDone?)
    && (forall id :: id in s.jobs.checks && s.jobs.checks[id].Signalling? ==> id in s.g.signal)
    && (forall id :: id in s.jobs.checks && id in s.g.signal && s.jobs.checks[id].CheckDone? ==> id in s.h.acked)
  }

  ghost predicate RunnerInv(s: State) {
    && (forall id :: id in s.jobs.runners <==> id in s.h.launched)
    && (forall id :: id in s.jobs.checks <==> id in s.jobs.runners && !s.jobs.runners[id].SpawnCheck?)
  }

  ghost predicate WgInv(s: State) {
    && s.g.wg == |LiveRunners(s.jobs.runners)| + (if s.recon.Admitted? || s.recon.Spawning? then 1 else 0)
    && (s.stop.waiter.WaitReturned? ==> s.g.wg == 0)
  }

  ghost predicate Inv(s: State) {
    && StartLockInv(s) && ReaderInv(s) && WriterInv(s) && StopInv(s) && ReadInv(s)
    && StartInv(s) && CallInv(s) && FlowInv(s) && OrderInv(s) && AckInv(s) && RunnerInv(s) && WgInv(s)
  }

  lemma InitInv()
    ensures Inv(INIT)
  {
    assert Bag(PipeOf(INIT)) == multiset{};
    assert LiveRunners(INIT.jobs.runners) == {};
  }

  // ----- preservation, one part of the invariant and one goroutine at a time -----

  // The steps that receive from errChan, select a done context, or belong to a runner.
  predicate Minor(a: Action) { a.RunnerStep? || a.StartSelectsCtx? || a.DrainRecon? || a.DrainRunner? }

  lemma StartLockKeptByAdd(s: State, id: Id)
    requires StartLockInv(s) && AddStepOf(s, id).Next?
    ensures StartLockInv(AddStepOf(s, id).state)
  {
  }

  lemma StartLockKeptByStart(s: State)
    requires StartLockInv(s) && StartStepOf(s).Next?
    ensures StartLockInv(StartStepOf(s).state)
  {
  }

  lemma StartLockKeptByCheck(s: State, id: Id, ready: bool)
    requires StartLockInv(s) && CheckStepOf(s, id, ready).Next?
    ensures StartLockInv(CheckStepOf(s, id, ready).state)
  {
  }

  lemma StartLockKeptByCall(s: State, a: Action)
    requires StartLockInv(s) && CallStepOf(s, a).Next?
    ensures StartLockInv(CallStepOf(s, a).state)
  {
  }

  lemma StartLockKeptByRecon(s: State)
    requires StartLockInv(s) && ReconStepOf(s).Next?
    ensures StartLockInv(ReconStepOf(s).state)
  {
  }

  lemma StartLockKeptByStop(s: State)
    requires StartLockInv(s) && StopStepOf(s).Next?
    ensures StartLockInv(StopStepOf(s).state)
  {
  }

  lemma StartLockKeptByMinor(s: State, a: Action)
    requires StartLockInv(s) && Minor(a) && Step(s, a).Next?
    ensures StartLockInv(Step(s, a).state)
  {
    match a
    case RunnerStep(_, _) =>
    case StartSelectsCtx =>
    case DrainRecon =>
    case DrainRunner(_) =>
  }

  lemma StartLockKept(s: State, a: Action)
    requires StartLockInv(s) && Step(s, a).Next?
    ensures StartLockInv(Step(s, a).state)
  {
    if a.AddStep? {
      StartLockKeptByAdd(s, a.id);
    } else if a.StartStep? {
      StartLockKeptByStart(s);
    } else if a.CheckStep? {
      StartLockKeptByCheck(s, a.id, a.ready);
    } else if a.ReconStep? {
      StartLockKeptByRecon(s);
    } else if a.StopStep? {
      StartLockKeptByStop(s);
    } else if Minor(a) {
      StartLockKeptByMinor(s, a);
    } else {
      StartLockKeptByCall(s, a);
    }
  }

  lemma ReaderKeptByAdd(s: State, id: Id)
    requires ReaderInv(s) && StartInv(s) && AddStepOf(s, id).Next?
    ensures ReaderInv(AddStepOf(s, id).state)
  {
  }

  lemma ReaderKeptByRecon(s: State)
    requires ReaderInv(s) && StartInv(s) && ReconStepOf(s).Next?
    ensures ReaderInv(ReconStepOf(s).state)
  {
  }

  lemma ReaderKeptByStop(s: State)
    requires ReaderInv(s) && StartInv(s) && StopStepOf(s).Next?
    ensures ReaderInv(StopStepOf(s).state)
  {
  }

  lemma ReaderKeptByCall(s: State, a: Action)
    requires ReaderInv(s) && StartInv(s) && CallStepOf(s, a).Next?
    ensures ReaderInv(CallStepOf(s, a).state)
  {
  }

  lemma ReaderKeptByStart(s: State)
    requires ReaderInv(s) && StartInv(s) && StartStepOf(s).Next?
    ensures ReaderInv(StartStepOf(s).state)
  {
  }

  lemma ReaderKeptByCheck(s: State, id: Id, ready: bool)
    requires ReaderInv(s) && StartInv(s) && CheckStepOf(s, id, ready).Next?
    ensures ReaderInv(CheckStepOf(s, id, ready).state)
  {
  }

  lemma ReaderKeptByMinor(s: State, a: Action)
    requires ReaderInv(s) && StartInv(s) && Minor(a) && Step(s, a).Next?
    ensures ReaderInv(Step(s, a).state)
  {
    match a
    case RunnerStep(_, _) =>
    case StartSelectsCtx =>
    case DrainRecon =>
    case DrainRunner(_) =>
  }

  lemma ReaderKept(s: State, a: Action)
    requires ReaderInv(s) && StartInv(s) && Step(s, a).Next?
    ensures ReaderInv(Step(s, a).state)
  {
    if a.AddStep? {
      ReaderKeptByAdd(s, a.id);
    } else if a.StartStep? {
      ReaderKeptByStart(s);
    } else if a.CheckStep? {
      ReaderKeptByCheck(s, a.id, a.ready);
    } else if a.ReconStep? {
      ReaderKeptByRecon(s);
    } else if a.StopStep? {
      ReaderKeptByStop(s);
    } else if Minor(a) {
      ReaderKeptByMinor(s, a);
    } else {
      ReaderKeptByCall(s, a);
    }
  }

  lemma WriterKept(s: State, a: Action)
    requires WriterInv(s) && Step(s, a).Next?
    ensures WriterInv(Step(s, a).state)
  {
    match a
    case AddStep(_) =>
    case ReconStep =>
    case StopStep =>
    case _ =>
  }

  lemma StopKeptByStop(s: State)
    requires StopInv(s) && StopStepOf(s).Next?
    ensures StopInv(StopStepOf(s).state)
  {
  }

  lemma StopKeptByAdd(s: State, id: Id)
    requires StopInv(s) && AddStepOf(s, id).Next?
    ensures StopInv(AddStepOf(s, id).state)
  {
  }

  lemma StopKeptByCall(s: State, a: Action)
    requires StopInv(s) && CallStepOf(s, a).Next?
    ensures StopInv(CallStepOf(s, a).state)
  {
  }

  lemma StopKeptByStart(s: State)
    requires StopInv(s) && StartStepOf(s).Next?
    ensures StopInv(StartStepOf(s).state)
  {
  }

  lemma StopKeptByRecon(s: State)
    requires StopInv(s) && ReconStepOf(s).Next?
    ensures StopInv(ReconStepOf(s).state)
  {
  }

  lemma StopKeptByCheck(s: State, id: Id, ready: bool)
    requires StopInv(s) && CheckStepOf(s, id, ready).Next?
    ensures StopInv(CheckStepOf(s, id, ready).state)
  {
  }

  lemma StopKeptByMinor(s: State, a: Action)
    requires StopInv(s) && Minor(a) && Step(s, a).Next?
    ensures StopInv(Step(s, a).state)
  {
    match a
    case RunnerStep(_, _) =>
    case StartSelectsCtx =>
    case DrainRecon =>
    case DrainRunner(_) =>
  }

  lemma StopKept(s: State, a: Action)
    requires StopInv(s) && Step(s, a).Next?
    ensures StopInv(Step(s, a).state)
  {
    if a.AddStep? {
      StopKeptByAdd(s, a.id);
    } else if a.StartStep? {
      StopKeptByStart(s);
    } else if a.CheckStep? {
      StopKeptByCheck(s, a.id, a.ready);
    } else if a.ReconStep? {
      StopKeptByRecon(s);
    } else if a.StopStep? {
      StopKeptByStop(s);
    } else if Minor(a) {
      StopKeptByMinor(s, a);
    } else {
      StopKeptByCall(s, a);
    }
  }

  lemma ReadKeptByAdd(s: State, id: Id)
    requires ReaderInv(s) && WriterInv(s) && StopInv(s) && ReadInv(s) && AddStepOf(s, id).Next?
    ensures ReadInv(AddStepOf(s, id).state)
  {
  }

  lemma ReadKeptByRecon(s: State)
    requires ReaderInv(s) && WriterInv(s) && StopInv(s) && ReadInv(s) && ReconStepOf(s).Next?
    ensures ReadInv(ReconStepOf(s).state)
  {
  }

  lemma ReadKeptByStop(s: State)
    requires ReaderInv(s) && WriterInv(s) && StopInv(s) && ReadInv(s) && StopStepOf(s).Next?
    ensures ReadInv(StopStepOf(s).state)
  {
  }

  lemma ReadKeptByCall(s: State, a: Action)
    requires ReaderInv(s) && WriterInv(s) && StopInv(s) && ReadInv(s) && CallStepOf(s, a).Next?
    ensures ReadInv(CallStepOf(s, a).state)
  {
  }

  lemma ReadKeptByStart(s: State)
    requires ReaderInv(s) && WriterInv(s) && StopInv(s) && ReadInv(s) && StartStepOf(s).Next?
    ensures ReadInv(StartStepOf(s).state)
  {
  }

  lemma ReadKeptByCheck(s: State, id: Id, ready: bool)
    requires ReaderInv(s) && WriterInv(s) && StopInv(s) && ReadInv(s) && CheckStepOf(s, id, ready).Next?
    ensures ReadInv(CheckStepOf(s, id, ready).state)
  {
  }

  lemma ReadKeptByMinor(s: State, a: Action)
    requires ReaderInv(s) && WriterInv(s) && StopInv(s) && ReadInv(s) && Minor(a) && Step(s, a).Next?
    ensures ReadInv(Step(s, a).state)
  {
    match a
    case RunnerStep(_, _) =>
    case StartSelectsCtx =>
    case DrainRecon =>
    case DrainRunner(_) =>
  }

  lemma ReadKept(s: State, a: Action)
    requires ReaderInv(s) && WriterInv(s) && StopInv(s) && ReadInv(s) && Step(s, a).Next?
    ensures ReadInv(Step(s, a).state)
  {
    if a.AddStep? {
      ReadKeptByAdd(s, a.id);
    } else if a.StartStep? {
      ReadKeptByStart(s);
    } else if a.CheckStep? {
      ReadKeptByCheck(s, a.id, a.ready);
    } else if a.ReconStep? {
      ReadKeptByRecon(s);
    } else if a.StopStep? {
      ReadKeptByStop(s);
    } else if Minor(a) {
      ReadKeptByMinor(s, a);
    } else {
      ReadKeptByCall(s, a);
    }
  }

  lemma StartKeptByAdd(s: State, id: Id)
    requires StartLockInv(s) && StartInv(s) && AddStepOf(s, id).Next?
    ensures StartInv(AddStepOf(s, id).state)
  {
  }

  lemma StartKeptByStart(s: State)
    requires StartLockInv(s) && StartInv(s) && StartStepOf(s).Next?
    ensures StartInv(StartStepOf(s).state)
  {
  }

  lemma StartKeptByCheck(s: State, id: Id, ready: bool)
    requires StartInv(s) && CheckStepOf(s, id, ready).Next?
    ensures StartInv(CheckStepOf(s, id, ready).state)
  {
  }

  lemma StartKeptByRecon(s: State)
    requires StartLockInv(s) && StartInv(s) && ReconStepOf(s).Next?
    ensures StartInv(ReconStepOf(s).state)
  {
  }

  lemma StartKeptByStop(s: State)
    requires StartLockInv(s) && StartInv(s) && StopStepOf(s).Next?
    ensures StartInv(StopStepOf(s).state)
  {
  }

  lemma StartKeptByCall(s: State, a: Action)
    requires StartLockInv(s) && StartInv(s) && CallStepOf(s, a).Next?
    ensures StartInv(CallStepOf(s, a).state)
  {
  }

  lemma StartKeptByMinor(s: State, a: Action)
    requires StartLockInv(s) && StartInv(s) && Minor(a) && Step(s, a).Next?
    ensures StartInv(Step(s, a).state)
  {
    match a
    case RunnerStep(_, _) =>
    case StartSelectsCtx =>
    case DrainRecon =>
    case DrainRunner(_) =>
  }

  lemma StartKept(s: State, a: Action)
    requires StartLockInv(s) && StartInv(s) && Step(s, a).Next?
    ensures StartInv(Step(s, a).state)
  {
    if a.AddStep? {
      StartKeptByAdd(s, a.id);
    } else if a.StartStep? {
      StartKeptByStart(s);
    } else if a.CheckStep? {
      StartKeptByCheck(s, a.id, a.ready);
    } else if a.ReconStep? {
      StartKeptByRecon(s);
    } else if a.StopStep? {
      StartKeptByStop(s);
    } else if Minor(a) {
      StartKeptByMinor(s, a);
    } else {
      StartKeptByCall(s, a);
    }
  }

  lemma CallKeptByAdd(s: State, id: Id)
    requires CallInv(s) && AddStepOf(s, id).Next?
    ensures CallInv(AddStepOf(s, id).state)
  {
  }

  lemma CallKeptByStart(s: State)
    requires CallInv(s) && StartStepOf(s).Next?
    ensures CallInv(StartStepOf(s).state)
  {
  }

  lemma CallKeptByRecon(s: State)
    requires CallInv(s) && ReconStepOf(s).Next?
    ensures CallInv(ReconStepOf(s).state)
  {
  }

  lemma CallKeptByCheck(s: State, id: Id, ready: bool)
    requires CallInv(s) && CheckStepOf(s, id, ready).Next?
    ensures CallInv(CheckStepOf(s, id, ready).state)
  {
  }

  lemma CallKeptByStop(s: State)
    requires CallInv(s) && StopStepOf(s).Next?
    ensures CallInv(StopStepOf(s).state)
  {
  }

  lemma CallKeptByCall(s: State, a: Action)
    requires CallInv(s) && CallStepOf(s, a).Next?
    ensures CallInv(CallStepOf(s, a).state)
  {
  }

  lemma CallKeptByMinor(s: State, a: Action)
    requires CallInv(s) && Minor(a) && Step(s, a).Next?
    ensures CallInv(Step(s, a).state)
  {
    match a
    case RunnerStep(_, _) =>
    case StartSelectsCtx =>
    case DrainRecon =>
    case DrainRunner(_) =>
  }

  lemma CallKept(s: State, a: Action)
    requires CallInv(s) && Step(s, a).Next?
    ensures CallInv(Step(s, a).state)
  {
    if a.AddStep? {
      CallKeptByAdd(s, a.id);
    } else if a.StartStep? {
      CallKeptByStart(s);
    } else if a.CheckStep? {
      CallKeptByCheck(s, a.id, a.ready);
    } else if a.ReconStep? {
      CallKeptByRecon(s);
    } else if a.StopStep? {
      CallKeptByStop(s);
    } else if Minor(a) {
      CallKeptByMinor(s, a);
    } else {
      CallKeptByCall(s, a);
    }
  }

  /** A runnable that reconcile holds has been neither launched nor dropped. */
  ghost predicate HeldIsFresh(s: State) {
    forall id :: id in HeldBy(s.recon) ==> id !in s.h.launched && id !in s.h.dropped
  }

  ghost predicate HeldNotRunning(s: State) {
    forall id :: id in HeldBy(s.recon) ==> id !in s.jobs.runners
  }

  lemma FlowKeepsHeldFresh(s: State)
    requires FlowInv(s)
    ensures HeldIsFresh(s)
  {
    forall id | id in HeldBy(s.recon)
      ensures id !in s.h.launched && id !in s.h.dropped
    {
      assert Bag(PipeOf(s))[id] <= 1;
    }
  }

  lemma RunnerKeptByRecon(s: State)
    requires RunnerInv(s) && HeldIsFresh(s) && ReconStepOf(s).Next?
    ensures RunnerInv(ReconStepOf(s).state)
  {
  }

  lemma RunnerKeptByCheck(s: State, id: Id, ready: bool)
    requires RunnerInv(s) && CheckStepOf(s, id, ready).Next?
    ensures RunnerInv(CheckStepOf(s, id, ready).state)
  {
  }

  lemma RunnerKeptByCall(s: State, a: Action)
    requires RunnerInv(s) && CallStepOf(s, a).Next?
    ensures RunnerInv(CallStepOf(s, a).state)
  {
  }

  lemma RunnerKeptByAdd(s: State, id: Id)
    requires RunnerInv(s) && AddStepOf(s, id).Next?
    ensures RunnerInv(AddStepOf(s, id).state)
  {
  }

  lemma RunnerKeptByStart(s: State)
    requires RunnerInv(s) && StartStepOf(s).Next?
    ensures RunnerInv(StartStepOf(s).state)
  {
  }

  lemma RunnerKeptByStop(s: State)
    requires RunnerInv(s) && StopStepOf(s).Next?
    ensures RunnerInv(StopStepOf(s).state)
  {
  }

  lemma RunnerKeptByMinor(s: State, a: Action)
    requires RunnerInv(s) && Minor(a) && Step(s, a).Next?
    ensures RunnerInv(Step(s, a).state)
  {
    match a
    case RunnerStep(_, _) =>
    case StartSelectsCtx =>
    case DrainRecon =>
    case DrainRunner(_) =>
  }

  lemma RunnerKept(s: State, a: Action)
    requires RunnerInv(s) && HeldIsFresh(s) && Step(s, a).Next?
    ensures RunnerInv(Step(s, a).state)
  {
    if a.AddStep? {
      RunnerKeptByAdd(s, a.id);
    } else if a.StartStep? {
      RunnerKeptByStart(s);
    } else if a.CheckStep? {
      RunnerKeptByCheck(s, a.id, a.ready);
    } else if a.ReconStep? {
      RunnerKeptByRecon(s);
    } else if a.StopStep? {
      RunnerKeptByStop(s);
    } else if Minor(a) {
      RunnerKeptByMinor(s, a);
    } else {
      RunnerKeptByCall(s, a);
    }
  }

  lemma LiveAfter(runners: map<Id, RunnerPc>, id: Id, pc: RunnerPc)
    ensures |LiveRunners(runners[id := pc])| == |LiveRunners(runners)|
      - (if id in LiveRunners(runners) then 1 else 0) + (if pc.RunnerExited? then 0 else 1)
  {
    var live := LiveRunners(runners);
    assert LiveRunners(runners[id := pc]) == if pc.RunnerExited? then live - {id} else live + {id};
  }

  lemma WgKeptByRecon(s: State)
    requires WgInv(s) && HeldNotRunning(s) && ReadInv(s) && StopInv(s) && ReconStepOf(s).Next?
    ensures WgInv(ReconStepOf(s).state)
  {
    if s.recon.Spawning? {
      LiveAfter(s.jobs.runners, s.recon.id, SpawnCheck);
    }
  }

  lemma WgKeptByRunner(s: State, id: Id, fails: bool)
    requires WgInv(s) && RunnerStepOf(s, id, fails).Next?
    ensures WgInv(RunnerStepOf(s, id, fails).state)
  {
    LiveAfter(s.jobs.runners, id, RunnerStepOf(s, id, fails).state.jobs.runners[id]);
  }

  lemma WgKeptByStart(s: State)
    requires WgInv(s) && StartInv(s) && StartStepOf(s).Next?
    ensures WgInv(StartStepOf(s).state)
  {
  }

  lemma WgKeptByStop(s: State)
    requires WgInv(s) && StopInv(s) && StopStepOf(s).Next?
    ensures WgInv(StopStepOf(s).state)
  {
  }

  lemma WgKeptByCheck(s: State, id: Id, ready: bool)
    requires WgInv(s) && CheckStepOf(s, id, ready).Next?
    ensures WgInv(CheckStepOf(s, id, ready).state)
  {
  }

  lemma WgKeptByCall(s: State, a: Action)
    requires WgInv(s) && CallStepOf(s, a).Next?
    ensures WgInv(CallStepOf(s, a).state)
  {
  }

  lemma WgKeptByAdd(s: State, id: Id)
    requires WgInv(s) && StartInv(s) && AddStepOf(s, id).Next?
    ensures WgInv(AddStepOf(s, id).state)
  {
  }

  lemma WgKeptByDrain(s: State, a: Action)
    requires WgInv(s) && (a.StartSelectsCtx? || a.DrainRecon? || a.DrainRunner?) && Step(s, a).Next?
    ensures WgInv(Step(s, a).state)
  {
    if a.DrainRunner? {
      LiveAfter(s.jobs.runners, a.id, WgDone);
    }
  }

  lemma WgKept(s: State, a: Action)
    requires WgInv(s) && HeldNotRunning(s) && ReadInv(s) && StopInv(s) && StartInv(s) && Step(s, a).Next?
    ensures WgInv(Step(s, a).state)
  {
    if a.AddStep? {
      WgKeptByAdd(s, a.id);
    } else if a.StartStep? {
      WgKeptByStart(s);
    } else if a.CheckStep? {
      WgKeptByCheck(s, a.id, a.ready);
    } else if a.ReconStep? {
      WgKeptByRecon(s);
    } else if a.StopStep? {
      WgKeptByStop(s);
    } else if a.RunnerStep? {
      WgKeptByRunner(s, a.id, a.fails);
    } else if Minor(a) {
      WgKeptByDrain(s, a);
    } else {
      WgKeptByCall(s, a);
    }
  }

  /** One step moves at most one runnable, to the next place; gain is what enters the pipe. */
  ghost predicate Moves(p: Pipe, q: Pipe, gain: seq<Id>) {
    || (gain == [] && q == p)
    || q == p.(unsent := p.unsent + gain)
    || (p.held == [] && q == p.(held := gain))
    || (gain == [] && p.held == [] && p.unsent != [] && q == p.(unsent := p.unsent[1..], held := p.unsent[..1]))
    || (gain == [] && q == p.(held := [], launched := p.launched + p.held))
    || (gain == [] && q == p.(held := [], dropped := p.dropped + p.held))
  }

  lemma MovesConserve(p: Pipe, q: Pipe, gain: seq<Id>)
    requires Moves(p, q, gain)
    ensures Bag(q) == Bag(p) + multiset(gain)
  {
    if p.unsent != [] {
      assert p.unsent == p.unsent[..1] + p.unsent[1..];
    }
  }

  lemma AddMoves(s: State, id: Id) returns (gain: seq<Id>)
    requires StartInv(s) && AddStepOf(s, id).Next?
    ensures Moves(PipeOf(s), PipeOf(AddStepOf(s, id).state), gain) && |gain| <= 1
    ensures forall i :: DeliveredIn(AddStepOf(s, id).state.adds, i) <==> DeliveredIn(s.adds, i) || i in gain
    ensures forall i :: i in gain ==> !DeliveredIn(s.adds, i)
  {
    gain := [];
    match s.adds[id]
    case ReadStarted =>
      if !s.g.started {
        gain := [id];
      }
    case Sending =>
      gain := [id];
    case _ =>
  }

  lemma StartMoves(s: State)
    requires StartInv(s) && StartStepOf(s).Next?
    ensures Moves(PipeOf(s), PipeOf(StartStepOf(s).state), []) && StartStepOf(s).state.adds == s.adds
  {
    var p, q := PipeOf(s), PipeOf(StartStepOf(s).state);
    match s.start.pc
    case SendQueued(n) =>
      assert n < |s.g.queue| ==> p.unsent[..1] == q.held && p.unsent[1..] == q.unsent;
      assert n == |s.g.queue| ==> q.unsent == p.unsent + [];
    case SetStarted => assert q.unsent == p.unsent;
    case _ =>
  }

  lemma ReconMoves(s: State)
    requires ReconStepOf(s).Next?
    ensures Moves(PipeOf(s), PipeOf(ReconStepOf(s).state), []) && ReconStepOf(s).state.adds == s.adds
  {
  }

  lemma CallMoves(s: State, a: Action)
    requires CallStepOf(s, a).Next?
    ensures Moves(PipeOf(s), PipeOf(CallStepOf(s, a).state), [])
    ensures forall id :: DeliveredIn(CallStepOf(s, a).state.adds, id) <==> DeliveredIn(s.adds, id)
  {
  }

  lemma CheckMoves(s: State, id: Id, ready: bool)
    requires CheckStepOf(s, id, ready).Next?
    ensures Moves(PipeOf(s), PipeOf(CheckStepOf(s, id, ready).state), [])
    ensures CheckStepOf(s, id, ready).state.adds == s.adds
  {
  }

  lemma StopMoves(s: State)
    requires StopStepOf(s).Next?
    ensures Moves(PipeOf(s), PipeOf(StopStepOf(s).state), []) && StopStepOf(s).state.adds == s.adds
  {
    assert PipeOf(StopStepOf(s).state) == PipeOf(s);
  }

  lemma MinorMoves(s: State, a: Action)
    requires Minor(a) && Step(s, a).Next?
    ensures Moves(PipeOf(s), PipeOf(Step(s, a).state), []) && Step(s, a).state.adds == s.adds
  {
    if a.DrainRecon? {
      DrainMoves(s);
    } else {
      RunnerStandsStill(s, a);
      assert PipeOf(Step(s, a).state) == PipeOf(s);
    }
  }

  lemma DrainMoves(s: State)
    requires DrainReconOf(s).Next?
    ensures Moves(PipeOf(s), PipeOf(DrainReconOf(s).state), []) && DrainReconOf(s).state.adds == s.adds
  {
    var p := PipeOf(s);
    assert PipeOf(DrainReconOf(s).state) == p.(held := [], dropped := p.dropped + p.held);
  }

  lemma RunnerStandsStill(s: State, a: Action)
    requires (a.RunnerStep? || a.StartSelectsCtx? || a.DrainRunner?) && Step(s, a).Next?
    ensures var t := Step(s, a).state;
      t.start.pc == s.start.pc && t.g.queue == s.g.queue && t.recon == s.recon && t.h == s.h && t.adds == s.adds
  {
  }

  lemma OtherMoves(s: State, a: Action)
    requires Step(s, a).Next? && !a.AddStep? && !a.StartStep? && !a.ReconStep?
    ensures Moves(PipeOf(s), PipeOf(Step(s, a).state), [])
    ensures forall id :: DeliveredIn(Step(s, a).state.adds, id) <==> DeliveredIn(s.adds, id)
  {
    if a.CheckStep? {
      CheckMoves(s, a.id, a.ready);
    } else if a.StopStep? {
      StopMoves(s);
    } else if Minor(a) {
      MinorMoves(s, a);
    } else {
      CallMoves(s, a);
    }
  }

  lemma FlowFollows(s: State, t: State, gain: seq<Id>)
    requires FlowInv(s) && Moves(PipeOf(s), PipeOf(t), gain) && |gain| <= 1
    requires forall id :: DeliveredIn(t.adds, id) <==> DeliveredIn(s.adds, id) || id in gain
    requires forall id :: id in gain ==> !DeliveredIn(s.adds, id)
    ensures FlowInv(t)
  {
    MovesConserve(PipeOf(s), PipeOf(t), gain);
  }

  lemma StepMoves(s: State, a: Action, t: State) returns (gain: seq<Id>)
    requires StartInv(s) && Step(s, a) == Next(t)
    ensures Moves(PipeOf(s), PipeOf(t), gain) && |gain| <= 1
    ensures forall id :: DeliveredIn(t.adds, id) <==> DeliveredIn(s.adds, id) || id in gain
    ensures forall id :: id in gain ==> !DeliveredIn(s.adds, id)
  {
    gain := [];
    match a {
      case AddStep(id) => gain := AddMoves(s, id);
      case StartStep => StartMoves(s);
      case ReconStep => ReconMoves(s);
      case _ => OtherMoves(s, a);
    }
  }

  lemma FlowKept(s: State, a: Action)
    requires FlowInv(s) && StartInv(s) && Step(s, a).Next?
    ensures FlowInv(Step(s, a).state)
  {
    var gain := StepMoves(s, a, Step(s, a).state);
    FlowFollows(s, Step(s, a).state, gain);
  }

  lemma {:induction false} RemainingMember(q: seq<Id>, gone: set<Id>, id: Id)
    ensures id in Remaining(q, gone) <==> id in q && id !in gone
  {
    if q != [] {
      RemainingMember(q[1..], gone, id);
    }
  }

  lemma {:induction false} RemainingOfAll(q: seq<Id>)
    ensures Remaining(q, {}) == q
  {
    if q != [] {
      RemainingOfAll(q[1..]);
    }
  }

  /** The splice of the select loop keeps the rest of the queue, in order. */
  lemma {:induction false} RemoveFromRemaining(q: seq<Id>, gone: set<Id>, id: Id)
    requires NoDuplicates(q) && id in q && id !in gone
    ensures RemoveFirst(Remaining(q, gone), id) == Remaining(q, gone + {id})
  {
    if q[0] == id {
      assert id !in q[1..];
      RemainingSame(q[1..], gone, gone + {id});
    } else {
      RemoveFromRemaining(q[1..], gone, id);
    }
  }

  lemma {:induction false} RemainingSame(q: seq<Id>, gone: set<Id>, more: set<Id>)
    requires forall id :: id in q ==> (id in gone <==> id in more)
    ensures Remaining(q, gone) == Remaining(q, more)
  {
    if q != [] {
      assert q[0] in q;
      RemainingSame(q[1..], gone, more);
    }
  }

  /** The last acknowledgement comes after the launch of every queued runnable. */
  lemma AllAckedAllLaunched(s: State)
    requires RunnerInv(s) && HeldIsFresh(s)
    requires s.h.initial <= Handled(s)
    requires forall id :: id in s.h.initial ==> id in s.jobs.checks
    ensures s.h.initial <= s.h.launched
  {
    if s.h.initial != [] {
      assert s.h.initial[|s.h.initial| - 1] in s.h.launched;
    }
  }

  lemma OrderKeptByCheck(s: State, id: Id, ready: bool)
    requires OrderInv(s) && StartInv(s) && AckInv(s) && RunnerInv(s) && HeldIsFresh(s)
    requires CheckStepOf(s, id, ready).Next?
    ensures OrderInv(CheckStepOf(s, id, ready).state)
  {
    var t := CheckStepOf(s, id, ready).state;
    if s.jobs.checks[id].Signalling? && t.start.pc.CloseReady? {
      RemainingMember(s.h.initial, s.h.acked, id);
      RemoveFromRemaining(s.h.initial, s.h.acked, id);
      forall i | i in s.h.initial
        ensures i in s.jobs.checks
      {
        RemainingMember(s.h.initial, t.h.acked, i);
      }
      AllAckedAllLaunched(s);
    }
  }

  lemma OrderKeptByStart(s: State)
    requires OrderInv(s) && StartInv(s) && StartStepOf(s).Next?
    requires s.start.pc.SendQueued? || s.start.pc.TestEmpty? ==> s.g.queue == s.h.initial
    ensures OrderInv(StartStepOf(s).state)
  {
    match s.start.pc
    case SendQueued(n) =>
      assert n < |s.g.queue| ==> s.h.initial[..n + 1] == s.h.initial[..n] + [s.h.initial[n]];
    case TestEmpty =>
    case _ =>
  }

  // What OrderInv needs to know of a step that neither sends nor signals.
  ghost predicate Grows(s: State, t: State) {
    && (t.start.pc == s.start.pc || (BeforeSends(s.start.pc) && BeforeSends(t.start.pc)))
    && t.h.initial == s.h.initial && (AfterUnlock(s.start.pc) ==> t.g.queue == s.g.queue)
    && s.h.launched <= t.h.launched
    && (s.start.pc.Finished? || Handled(s) <= Handled(t))
    && (AfterUnlock(s.start.pc) || Handled(s) == Handled(t))
  }

  lemma AddGrows(s: State, id: Id)
    requires StartInv(s) && AddStepOf(s, id).Next?
    ensures Grows(s, AddStepOf(s, id).state)
  {
  }

  lemma ReconGrows(s: State)
    requires StartInv(s) && ReconStepOf(s).Next?
    ensures Grows(s, ReconStepOf(s).state)
  {
  }

  lemma StopGrows(s: State)
    requires StartInv(s) && StopStepOf(s).Next?
    ensures Grows(s, StopStepOf(s).state)
  {
  }

  lemma MinorGrows(s: State, a: Action)
    requires StopInv(s) && ReadInv(s) && Minor(a) && Step(s, a).Next?
    ensures Grows(s, Step(s, a).state)
  {
    match a
    case RunnerStep(_, _) =>
    case StartSelectsCtx =>
    case DrainRecon =>
    case DrainRunner(_) =>
  }

  lemma CallGrows(s: State, a: Action)
    requires CallStepOf(s, a).Next?
    ensures Grows(s, CallStepOf(s, a).state)
  {
  }

  lemma HandledGrows(s: State, a: Action, t: State)
    requires StartInv(s) && StopInv(s) && ReadInv(s)
    requires !a.CheckStep? && !a.StartStep? && Step(s, a) == Next(t)
    ensures Grows(s, t)
  {
    if a.AddStep? {
      AddGrows(s, a.id);
    } else if a.ReconStep? {
      ReconGrows(s);
    } else if a.StopStep? {
      StopGrows(s);
    } else if Minor(a) {
      MinorGrows(s, a);
    } else {
      CallGrows(s, a);
    }
  }

  lemma OrderKeptByOthers(s: State, a: Action)
    requires OrderInv(s) && StartInv(s) && StopInv(s) && ReadInv(s)
    requires !a.CheckStep? && !a.StartStep? && Step(s, a).Next?
    ensures OrderInv(Step(s, a).state)
  {
    HandledGrows(s, a, Step(s, a).state);
  }

  lemma AckKeptByCheck(s: State, id: Id, ready: bool)
    requires AckInv(s) && StartInv(s) && OrderInv(s) && RunnerInv(s) && CheckStepOf(s, id, ready).Next?
    ensures AckInv(CheckStepOf(s, id, ready).state)
  {
    if s.jobs.checks[id].Signalling? {
      RemoveFromRemaining(s.h.initial, s.h.acked, id);
    }
  }

  lemma NextIsFresh(s: State)
    requires FlowInv(s) && RunnerInv(s) && s.start.pc.SendQueued? && s.start.pc.next < |s.g.queue|
    ensures s.g.queue[s.start.pc.next] !in s.jobs.checks
  {
    var id := s.g.queue[s.start.pc.next];
    assert id in s.g.queue[s.start.pc.next..];
    assert Bag(PipeOf(s))[id] <= 1;
    assert id !in s.h.launched;
  }

  lemma AckKeptBySend(s: State)
    requires AckInv(s) && StartInv(s) && s.start.pc.SendQueued? && StartStepOf(s).Next?
    requires s.start.pc.next < |s.g.queue| ==> s.g.queue[s.start.pc.next] !in s.jobs.checks
    ensures AckInv(StartStepOf(s).state)
  {
    var n := s.start.pc.next;
    RemainingOfAll(s.h.initial);
    if n < |s.g.queue| {
      assert s.h.initial[..n + 1] == s.h.initial[..n] + [s.h.initial[n]];
    } else {
      assert s.h.initial[..n] == s.h.initial;
    }
  }

  lemma AckKeptByStart(s: State)
    requires AckInv(s) && StartInv(s) && !s.start.pc.SendQueued? && StartStepOf(s).Next?
    requires s.start.pc.SetStarted? ==> NoDuplicates(s.g.queue)
    ensures AckInv(StartStepOf(s).state)
  {
    if s.start.pc.SetStarted? {
      RemainingOfAll(s.g.queue);
    }
  }

  lemma CountsToNoDuplicates(q: seq<Id>)
    requires forall id :: multiset(q)[id] <= 1
    ensures NoDuplicates(q)
  {
    forall i, j | 0 <= i < j < |q|
      ensures q[i] != q[j]
    {
      assert q == q[..i] + [q[i]] + q[i + 1..j] + [q[j]] + q[j + 1..];
      assert multiset(q)[q[j]] <= 1;
    }
  }

  lemma UnsentHasNoDuplicates(s: State)
    requires FlowInv(s)
    ensures NoDuplicates(Unsent(s.start.pc, s.g.queue))
  {
    var q := Unsent(s.start.pc, s.g.queue);
    forall id
      ensures multiset(q)[id] <= 1
    {
      assert Bag(PipeOf(s))[id] <= 1;
    }
    CountsToNoDuplicates(q);
  }

  // What AckInv needs to know of a step that neither sends nor signals.
  ghost predicate AckFrame(s: State, a: Action, t: State) {
    && t.h.initial == s.h.initial && t.h.acked == s.h.acked && t.g.signal == s.g.signal
    && t.g.started == s.g.started && (s.g.started ==> t.g.queue == s.g.queue)
    && (t.start.pc == s.start.pc || (BeforeSends(s.start.pc) && BeforeSends(t.start.pc)))
    && (t.jobs.checks == s.jobs.checks
        || (a.RunnerStep? && a.id !in s.jobs.checks && t.jobs.checks == s.jobs.checks[a.id := Checking]))
  }

  lemma AddInFrame(s: State, id: Id)
    requires AddStepOf(s, id).Next?
    ensures AckFrame(s, AddStep(id), AddStepOf(s, id).state)
  {
  }

  lemma ReconInFrame(s: State)
    requires ReconStepOf(s).Next?
    ensures AckFrame(s, ReconStep, ReconStepOf(s).state)
  {
  }

  lemma StopInFrame(s: State)
    requires StopStepOf(s).Next?
    ensures AckFrame(s, StopStep, StopStepOf(s).state)
  {
  }

  lemma MinorInFrame(s: State, a: Action)
    requires RunnerInv(s) && Minor(a) && Step(s, a).Next?
    ensures AckFrame(s, a, Step(s, a).state)
  {
    match a
    case RunnerStep(_, _) =>
    case StartSelectsCtx =>
    case DrainRecon =>
    case DrainRunner(_) =>
  }

  lemma CallInFrame(s: State, a: Action)
    requires CallStepOf(s, a).Next?
    ensures AckFrame(s, a, CallStepOf(s, a).state)
  {
  }

  lemma StepInFrame(s: State, a: Action, t: State)
    requires RunnerInv(s) && !a.CheckStep? && !a.StartStep? && Step(s, a) == Next(t)
    ensures AckFrame(s, a, t)
  {
    if a.AddStep? {
      AddInFrame(s, a.id);
    } else if a.ReconStep? {
      ReconInFrame(s);
    } else if a.StopStep? {
      StopInFrame(s);
    } else if Minor(a) {
      MinorInFrame(s, a);
    } else {
      CallInFrame(s, a);
    }
  }

  lemma AckKeptByOthers(s: State, a: Action)
    requires AckInv(s) && StartInv(s) && RunnerInv(s)
    requires !a.CheckStep? && !a.StartStep? && Step(s, a).Next?
    ensures AckInv(Step(s, a).state)
  {
    StepInFrame(s, a, Step(s, a).state);
  }

  lemma OrderAndAckKeptByStart(s: State)
    requires Inv(s) && StartStepOf(s).Next?
    ensures OrderInv(StartStepOf(s).state) && AckInv(StartStepOf(s).state)
  {
    RemainingOfAll(s.h.initial);
    OrderKeptByStart(s);
    if s.start.pc.SendQueued? {
      if s.start.pc.next < |s.g.queue| {
        NextIsFresh(s);
      }
      AckKeptBySend(s);
    } else {
      UnsentHasNoDuplicates(s);
      AckKeptByStart(s);
    }
  }

  lemma OrderAndAckKept(s: State, a: Action)
    requires Inv(s) && HeldIsFresh(s) && Step(s, a).Next?
    ensures OrderInv(Step(s, a).state) && AckInv(Step(s, a).state)
  {
    if a.CheckStep? {
      OrderKeptByCheck(s, a.id, a.ready);
      AckKeptByCheck(s, a.id, a.ready);
    } else if a.StartStep? {
      OrderAndAckKeptByStart(s);
    } else {
      OrderKeptByOthers(s, a);
      AckKeptByOthers(s, a);
    }
  }

  /** Every step of every goroutine keeps the invariant. */
  lemma StepKeepsInv(s: State, a: Action)
    requires Inv(s) && Step(s, a).Next?
    ensures Inv(Step(s, a).state)
  {
    FlowKeepsHeldFresh(s);
    StartLockKept(s, a);
    ReaderKept(s, a);
    WriterKept(s, a);
    StopKept(s, a);
    ReadKept(s, a);
    StartKept(s, a);
    CallKept(s, a);
    FlowKept(s, a);
    OrderAndAckKept(s, a);
    RunnerKept(s, a);
    WgKept(s, a);
  }

  lemma {:induction false} ExecKeepsInv(s: State, run: seq<Action>)
    requires Inv(s) && Exec(s, run).Next?
    ensures Inv(Exec(s, run).state)
    decreases |run|
  {
    if run != [] {
      StepKeepsInv(s, run[0]);
      ExecKeepsInv(Step(s, run[0]).state, run[1..]);
    }
  }

  lemma ReachableInv(s: State)
    requires Reachable(s)
    ensures Inv(s)
  {
    var run :| Exec(INIT, run) == Next(s);
    InitInv();
    ExecKeepsInv(INIT, run);
  }
}
