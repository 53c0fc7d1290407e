/** The whole pipeline: threads of database servers firing the probe, the queue and the events between the
    probe and the pump, and the pump, in any interleaving. */
module Pipeline {
  import opened Wrappers
  import opened Bytes
  import opened Probe
  import EQ = EventQueue

  // What happened to the slots, in order: a recorded entry, or a push.
  datatype Obs = Recorded(entry: Entry) | Pushed(gtid: U64, at: Return, rec: DbCtx)

  datatype State = State(
    maps: Maps,
    chan: EQ.Channel<DbCtx>,
    emitting: map<nat, nat>,  // threads between their push and the output of its event
    clock: U64,
    log: seq<Obs>)

  const INIT: State := State(Maps({}, map[], map[]), EQ.Empty(ZERO_CTX), map[], 0, [])

  datatype Action =
    | Register(pid: nat)
    | Unregister(pid: nat)
    | Tick(now: U64)
    | FireEntry(cpu: Cpu, gtid: U64, command: nat, seen: EntryReads)
    | FireReturn(gtid: U64, rows: ReturnReads)
    | Emit(tid: nat, accepted: bool)
    | Pump(event: EQ.Event<DbCtx>)

  // A thread that has pushed and not output its event is still inside its return handler. The widths of
  // the scratch records never change (see AllSized).
  function EntryStep(s: State, cpu: Cpu, gtid: U64, command: nat, seen: EntryReads): Option<State> {
    if Tid(gtid) in s.emitting || !Readable(seen) || !Sized(Scratch(s.maps, cpu)) then None
    else
      var t := s.(maps := OnEntry(s.maps, cpu, gtid, command, s.clock, seen));
      if Records(s.maps, gtid, command) && HasRoom(s.maps, Tid(gtid))
      then Some(t.(log := s.log + [Recorded(Entry(gtid, s.clock, seen))]))
      else Some(t)
  }

  function ReturnStep(s: State, gtid: U64, seen: ReturnReads): Option<State> {
    if Tid(gtid) in s.emitting then None
    else match OnReturn(s.maps, gtid, s.clock, seen)
      case (_, None) => Some(s)
      case (maps, Some(rec)) =>
        Some(s.(maps := maps, chan := EQ.Step(s.chan, EQ.Push(rec)).value,
                emitting := s.emitting[Tid(gtid) := |s.chan.pushes|],
                log := s.log + [Pushed(gtid, Return(s.clock, seen), rec)]))
  }

  function WithChannel(s: State, chan: Option<EQ.Channel<DbCtx>>): Option<State> {
    match chan
    case Some(c) => Some(s.(chan := c))
    case None => None
  }

  function Step(s: State, a: Action): Option<State> {
    match a
    case Register(pid) => Some(s.(maps := s.maps.(clusters := s.maps.clusters + {pid})))
    case Unregister(pid) => Some(s.(maps := s.maps.(clusters := s.maps.clusters - {pid})))
    case Tick(now) => if s.clock <= now then Some(s.(clock := now)) else None
    case FireEntry(cpu, gtid, command, seen) => EntryStep(s, cpu, gtid, command, seen)
    case FireReturn(gtid, seen) => ReturnStep(s, gtid, seen)
    case Emit(tid, accepted) =>
      if tid !in s.emitting then None
      else WithChannel(s.(emitting := s.emitting - {tid}), EQ.Step(s.chan, EQ.Signal(s.emitting[tid], accepted)))
    case Pump(event) =>
      if event.Push? || event.Signal? then None else WithChannel(s, EQ.Step(s.chan, event))
  }

  function Exec(s: State, run: seq<Action>): Option<State>
    decreases |run|
  {
    if run == [] then Some(s)
    else match Step(s, run[0])
      case Some(t) => Exec(t, run[1..])
      case None => None
  }

  ghost predicate Reachable(s: State) {
    exists run :: Exec(INIT, run) == Some(s)
  }

  // ----- the log -----

  function GtidOf(o: Obs): U64 {
    match o
    case Recorded(e) => e.gtid
    case Pushed(gtid, _, _) => gtid
  }

  // The slot of a thread is named by the low word of its id, its process by the high word.
  function TidOf(o: Obs): nat { GtidOf(o) % 0x1_0000_0000 }

  /** The last thing that happened to the slot of tid. */
  function Latest(log: seq<Obs>, tid: nat): Option<Obs> {
    if log == [] then None
    else if TidOf(log[|log| - 1]) == tid then Some(log[|log| - 1])
    else Latest(log[..|log| - 1], tid)
  }

  function PushedRecords(log: seq<Obs>): seq<DbCtx> {
    if log == [] then []
    else
      var o := log[|log| - 1];
      PushedRecords(log[..|log| - 1]) + if o.Pushed? then [o.rec] else []
  }

  predicate Pending(m: Maps, tid: nat) { tid in m.slots && m.slots[tid].processed == 0xf }

  /** The record holds the data of this entry. */
  predicate Carries(d: DbCtx, e: Entry) {
    && d.gtid == e.gtid && d.costTime == e.now && d.comm == e.seen.comm && d.clusterName == e.seen.clusterName
    && d.query == e.seen.query && d.queryLen == e.seen.queryLen && d.threadId == e.seen.threadId
    && d.queryId == e.seen.queryId && d.database == e.seen.database && d.timestamp == e.seen.timestamp
    && d.host == e.seen.host && d.ipaddr == e.seen.ipaddr && d.peerPort == e.seen.peerPort
    && d.thdAddr == e.seen.thd
    && UntilNul(d.user) == e.seen.user[..Min(|e.seen.user|, 31)]
    && UntilNul(d.privUser) == e.seen.privUser[..Min(|e.seen.privUser|, 31)]
  }

  lemma FillCarries(scratch: DbCtx, e: Entry)
    requires Sized(scratch) && Readable(e.seen)
    ensures Carries(Fill(scratch, e.gtid, e.now, e.seen), e)
  {
    WriteStrShows(scratch.user, e.seen.user);
    WriteStrShows(scratch.privUser, e.seen.privUser);
  }

  /** The push o, made when the log was before, reports the latest recorded entry of its own thread. */
  ghost predicate Faithful(before: seq<Obs>, o: Obs)
    requires o.Pushed?
  {
    var last := Latest(before, TidOf(o));
    && last.Some? && last.value.Recorded?
    && last.value.entry.now <= o.at.now
    && Show(o.rec) == Report(last.value.entry, o.at)
    && o.rec.thdAddr == last.value.entry.seen.thd && o.rec.processed == 0
  }

  // ----- the invariant -----

  ghost predicate SlotInv(s: State, tid: nat) {
    var last := Latest(s.log, tid);
    && (tid in s.maps.slots <==> last.Some?)
    && (Pending(s.maps, tid) <==> last.Some? && last.value.Recorded?)
    && (Pending(s.maps, tid) ==>
          Carries(s.maps.slots[tid], last.value.entry) && last.value.entry.now <= s.clock)
  }

  ghost predicate LogInv(log: seq<Obs>) {
    forall j :: 0 <= j < |log| && log[j].Pushed? ==> Faithful(log[..j], log[j])
  }

  /** The threads in emitting are those whose last push has an event to output. */
  ghost predicate EmittingInv(s: State) {
    && EQ.Count(s.chan.fate, EQ.Unsignalled) == |s.emitting|
    && (forall tid :: tid in s.emitting ==> EQ.Is(s.chan.fate, s.emitting[tid], EQ.Unsignalled))
    && (forall a, b :: a in s.emitting && b in s.emitting && a != b ==> s.emitting[a] != s.emitting[b])
  }

  ghost predicate PipelineInv(s: State) {
    && AllSized(s.maps)
    && (forall tid :: SlotInv(s, tid))
    && LogInv(s.log)
    && EQ.ChannelInv(s.chan)
    && EmittingInv(s)
    && s.chan.pushes == PushedRecords(s.log)
  }

  lemma InitPipelineInv()
    ensures PipelineInv(INIT)
  {
    EQ.EmptyInv(ZERO_CTX);
    assert forall tid :: SlotInv(INIT, tid);
  }

  lemma EntryKeepsInv(s: State, cpu: Cpu, gtid: U64, command: nat, seen: EntryReads)
    requires PipelineInv(s) && EntryStep(s, cpu, gtid, command, seen).Some?
    ensures PipelineInv(EntryStep(s, cpu, gtid, command, seen).value)
  {
    var t := EntryStep(s, cpu, gtid, command, seen).value;
    if Records(s.maps, gtid, command) {
      var e := Entry(gtid, s.clock, seen);
      FillCarries(Scratch(s.maps, cpu), e);
      if HasRoom(s.maps, Tid(gtid)) {
        assert t.log[..|s.log|] == s.log;
        forall tid
          ensures SlotInv(t, tid)
        {
          assert SlotInv(s, tid);
        }
        LogExtends(s.log, Recorded(e));
      } else {
        assert forall tid :: SlotInv(s, tid) ==> SlotInv(t, tid);
      }
    }
  }

  lemma LogExtends(log: seq<Obs>, o: Obs)
    requires LogInv(log) && (o.Pushed? ==> Faithful(log, o))
    ensures LogInv(log + [o])
  {
    var more := log + [o];
    forall j | 0 <= j < |more| && more[j].Pushed?
      ensures Faithful(more[..j], more[j])
    {
      assert more[..j] == log[..j];
      assert log[..|log|] == log;
    }
  }

  /** A push completes the entry its slot carries, and leaves no slot of its thread pending. */
  lemma ReturnKeepsSlots(s: State, gtid: U64, seen: ReturnReads)
    requires PipelineInv(s) && ReturnStep(s, gtid, seen).Some? && Pushes(s.maps, gtid)
    ensures var t := ReturnStep(s, gtid, seen).value; AllSized(t.maps) && forall tid :: SlotInv(t, tid)
  {
    var t := ReturnStep(s, gtid, seen).value;
    assert t.log[..|s.log|] == s.log;
    forall tid
      ensures SlotInv(t, tid)
    {
      assert SlotInv(s, tid);
    }
  }

  lemma ReturnIsFaithful(s: State, gtid: U64, seen: ReturnReads)
    requires PipelineInv(s) && Pushes(s.maps, gtid)
    ensures Faithful(s.log, Pushed(gtid, Return(s.clock, seen), Finish(s.maps.slots[Tid(gtid)], s.clock, seen)))
  {
    assert SlotInv(s, Tid(gtid));
  }

  lemma PushKeepsEmitting(s: State, gtid: U64, seen: ReturnReads)
    requires PipelineInv(s) && ReturnStep(s, gtid, seen).Some? && Pushes(s.maps, gtid)
    ensures EmittingInv(ReturnStep(s, gtid, seen).value)
  {
    var t := ReturnStep(s, gtid, seen).value;
    assert t.emitting.Keys == s.emitting.Keys + {Tid(gtid)};
    assert |t.emitting| == |t.emitting.Keys| && |s.emitting| == |s.emitting.Keys|;
  }

  lemma ReturnKeepsInv(s: State, gtid: U64, seen: ReturnReads)
    requires PipelineInv(s) && ReturnStep(s, gtid, seen).Some?
    ensures PipelineInv(ReturnStep(s, gtid, seen).value)
  {
    if Pushes(s.maps, gtid) {
      var rec := Finish(s.maps.slots[Tid(gtid)], s.clock, seen);
      var o := Pushed(gtid, Return(s.clock, seen), rec);
      ReturnIsFaithful(s, gtid, seen);
      LogExtends(s.log, o);
      ReturnKeepsSlots(s, gtid, seen);
      EQ.StepKeepsInv(s.chan, EQ.Push(rec));
      PushKeepsEmitting(s, gtid, seen);
      assert (s.log + [o])[..|s.log|] == s.log;
    }
  }

  lemma SlotsUnchanged(s: State, t: State)
    requires forall tid :: SlotInv(s, tid)
    requires t.maps.slots == s.maps.slots && t.log == s.log && s.clock <= t.clock
    ensures forall tid :: SlotInv(t, tid)
  {
    forall tid
      ensures SlotInv(t, tid)
    {
      assert SlotInv(s, tid);
    }
  }

  lemma EmitKeepsInv(s: State, tid: nat, accepted: bool)
    requires PipelineInv(s) && Step(s, Emit(tid, accepted)).Some?
    ensures PipelineInv(Step(s, Emit(tid, accepted)).value)
  {
    EQ.StepKeepsInv(s.chan, EQ.Signal(s.emitting[tid], accepted));
    EmitKeepsEmitting(s, tid, accepted);
    SlotsUnchanged(s, Step(s, Emit(tid, accepted)).value);
  }

  lemma EmitKeepsEmitting(s: State, tid: nat, accepted: bool)
    requires EmittingInv(s) && Step(s, Emit(tid, accepted)).Some?
    ensures EmittingInv(Step(s, Emit(tid, accepted)).value)
  {
    var t := Step(s, Emit(tid, accepted)).value;
    EQ.CountUpdate(s.chan.fate, s.emitting[tid], t.chan.fate[s.emitting[tid]]);
    assert t.emitting.Keys == s.emitting.Keys - {tid};
    assert |t.emitting| == |t.emitting.Keys| && |s.emitting| == |s.emitting.Keys|;
  }

  // The pump touches no event that is still to be output.
  lemma PumpKeepsUnsignalled<T>(c: EQ.Channel<T>, e: EQ.Event<T>, d: EQ.Channel<T>)
    requires !e.Push? && !e.Signal? && EQ.Step(c, e) == Some(d)
    ensures |d.fate| == |c.fate| && d.pushes == c.pushes
    ensures EQ.Count(d.fate, EQ.Unsignalled) == EQ.Count(c.fate, EQ.Unsignalled)
    ensures forall i :: EQ.Is(c.fate, i, EQ.Unsignalled) ==> EQ.Is(d.fate, i, EQ.Unsignalled)
  {
  }

  lemma PumpKeepsInv(s: State, e: EQ.Event<DbCtx>)
    requires PipelineInv(s) && Step(s, Pump(e)).Some?
    ensures PipelineInv(Step(s, Pump(e)).value)
  {
    var t := Step(s, Pump(e)).value;
    EQ.StepKeepsInv(s.chan, e);
    PumpKeepsUnsignalled(s.chan, e, t.chan);
    SlotsUnchanged(s, t);
  }

  lemma StepKeepsPipelineInv(s: State, a: Action)
    requires PipelineInv(s) && Step(s, a).Some?
    ensures PipelineInv(Step(s, a).value)
  {
    var t := Step(s, a).value;
    match a
    case FireEntry(cpu, gtid, command, seen) => EntryKeepsInv(s, cpu, gtid, command, seen);
    case FireReturn(gtid, seen) => ReturnKeepsInv(s, gtid, seen);
    case Emit(tid, accepted) => EmitKeepsInv(s, tid, accepted);
    case Pump(event) => PumpKeepsInv(s, event);
    case _ => SlotsUnchanged(s, t);
  }

  lemma {:induction false} ExecKeepsPipelineInv(s: State, run: seq<Action>)
    requires PipelineInv(s) && Exec(s, run).Some?
    ensures PipelineInv(Exec(s, run).value)
    decreases |run|
  {
    if run != [] {
      StepKeepsPipelineInv(s, run[0]);
      ExecKeepsPipelineInv(Step(s, run[0]).value, run[1..]);
    }
  }

  lemma ReachablePipelineInv(s: State)
    requires Reachable(s)
    ensures PipelineInv(s)
  {
    var run :| Exec(INIT, run) == Some(s);
    InitPipelineInv();
    ExecKeepsPipelineInv(INIT, run);
  }

  // ----- theorems -----

  /** Every push reports the latest entry recorded in the slot of its thread, whatever the scratch held
      before, with the exact time in between. */
  lemma SlotProvenance(s: State, j: nat)
    requires Reachable(s) && j < |s.log| && s.log[j].Pushed?
    ensures var o := s.log[j]; var last := Latest(s.log[..j], o.gtid % 0x1_0000_0000);
      && last.Some? && last.value.Recorded?
      && Show(o.rec) == Report(last.value.entry, o.at) && o.rec.gtid == last.value.entry.gtid
      && o.rec.costTime == o.at.now - last.value.entry.now
      && o.rec.thdAddr == last.value.entry.seen.thd && o.rec.processed == 0
  {
    ReachablePipelineInv(s);
    assert Faithful(s.log[..j], s.log[j]);
    assert Show(s.log[j].rec).costTime == s.log[j].rec.costTime;
    assert Show(s.log[j].rec).gtid == s.log[j].rec.gtid;
  }

  predicate Fires(a: Action) { a.FireEntry? || a.FireReturn? }

  // Threads are told apart by their ids: in this run two threads never share the low word.
  ghost predicate ThreadsApart(run: seq<Action>) {
    forall i, j :: 0 <= i < |run| && 0 <= j < |run| && Fires(run[i]) && Fires(run[j]) ==>
      (run[i].gtid % 0x1_0000_0000 == run[j].gtid % 0x1_0000_0000 ==> run[i].gtid == run[j].gtid)
  }

  ghost predicate FiredIn(run: seq<Action>, g: U64) {
    exists i :: 0 <= i < |run| && Fires(run[i]) && run[i].gtid == g
  }

  lemma LogGrows(s: State, a: Action, t: State)
    requires Step(s, a) == Some(t)
    ensures t.log == s.log || (Fires(a) && |t.log| == |s.log| + 1 && t.log[..|s.log|] == s.log
                               && GtidOf(t.log[|s.log|]) == a.gtid)
  {
  }

  /** Whatever is in the log was fired. */
  lemma {:induction false} LogIsFired(s: State, run: seq<Action>, t: State, j: nat)
    requires Exec(s, run) == Some(t) && |s.log| <= j < |t.log|
    ensures FiredIn(run, GtidOf(t.log[j]))
    decreases |run|
  {
    if run != [] {
      var u := Step(s, run[0]).value;
      LogGrows(s, run[0], u);
      LogStays(u, run[1..], t);
      if j < |u.log| {
        assert t.log[j] == u.log[j];
        assert run[0].gtid == GtidOf(t.log[j]);
      } else {
        LogIsFired(u, run[1..], t, j);
        var i :| 0 <= i < |run[1..]| && Fires(run[1..][i]) && run[1..][i].gtid == GtidOf(t.log[j]);
        assert run[i + 1] == run[1..][i];
      }
    }
  }

  lemma {:induction false} LogStays(s: State, run: seq<Action>, t: State)
    requires Exec(s, run) == Some(t)
    ensures |s.log| <= |t.log| && t.log[..|s.log|] == s.log
    decreases |run|
  {
    if run != [] {
      var u := Step(s, run[0]).value;
      LogGrows(s, run[0], u);
      LogStays(u, run[1..], t);
    }
  }

  // In this log a low word belongs to one thread.
  ghost predicate LogApart(log: seq<Obs>) {
    forall i, j :: 0 <= i < |log| && 0 <= j < |log| ==>
      (TidOf(log[i]) == TidOf(log[j]) ==> GtidOf(log[i]) == GtidOf(log[j]))
  }

  lemma ApartInLog(run: seq<Action>, s: State)
    requires Exec(INIT, run) == Some(s) && ThreadsApart(run)
    ensures LogApart(s.log)
  {
    forall i, j | 0 <= i < |s.log| && 0 <= j < |s.log| && TidOf(s.log[i]) == TidOf(s.log[j])
      ensures GtidOf(s.log[i]) == GtidOf(s.log[j])
    {
      LogIsFired(INIT, run, s, i);
      LogIsFired(INIT, run, s, j);
      var a :| 0 <= a < |run| && Fires(run[a]) && run[a].gtid == GtidOf(s.log[i]);
      var b :| 0 <= b < |run| && Fires(run[b]) && run[b].gtid == GtidOf(s.log[j]);
    }
  }

  /** The last thing that thread g has done to its slot. */
  function LatestOf(log: seq<Obs>, g: U64): Option<Obs> {
    if log == [] then None
    else if GtidOf(log[|log| - 1]) == g then Some(log[|log| - 1])
    else LatestOf(log[..|log| - 1], g)
  }

  lemma LatestOfThread(log: seq<Obs>, j: nat)
    requires LogApart(log) && j < |log|
    ensures Latest(log[..j], TidOf(log[j])) == LatestOf(log[..j], GtidOf(log[j]))
  {
    LatestUpTo(log, j, j);
  }

  lemma {:induction false} LatestUpTo(log: seq<Obs>, j: nat, n: nat)
    requires LogApart(log) && j < |log| && n <= |log|
    ensures Latest(log[..n], TidOf(log[j])) == LatestOf(log[..n], GtidOf(log[j]))
  {
    if n > 0 {
      assert log[..n][..n - 1] == log[..n - 1];
      LatestUpTo(log, j, n - 1);
    }
  }

  /** When threads have ids of their own, every push carries the id of the thread that returned, and reports
      the latest recorded entry of that thread, whatever the scratch held before, with the exact time in
      between. */
  lemma Provenance(run: seq<Action>, s: State, j: nat)
    requires Exec(INIT, run) == Some(s) && ThreadsApart(run) && j < |s.log| && s.log[j].Pushed?
    ensures var o := s.log[j]; var last := LatestOf(s.log[..j], o.gtid);
      && last.Some? && last.value.Recorded? && last.value.entry.gtid == o.gtid == o.rec.gtid
      && Show(o.rec) == Report(last.value.entry, o.at)
      && o.rec.costTime == o.at.now - last.value.entry.now
      && o.rec.thdAddr == last.value.entry.seen.thd && o.rec.processed == 0
  {
    SlotProvenance(s, j);
    ApartInLog(run, s);
    LatestOfThread(s.log, j);
    var k := LatestAt(s.log[..j], s.log[j].gtid);
  }

  /** Where the last entry of g is in the log. */
  lemma {:induction false} LatestAt(log: seq<Obs>, g: U64) returns (k: nat)
    requires LatestOf(log, g).Some?
    ensures k < |log| && LatestOf(log, g) == Some(log[k]) && GtidOf(log[k]) == g
    ensures forall i :: k < i < |log| ==> GtidOf(log[i]) != g
  {
    var n := |log| - 1;
    if GtidOf(log[n]) == g {
      k := n;
    } else {
      k := LatestAt(log[..n], g);
    }
  }

  /** Between two pushes of a thread an entry of that thread was recorded. */
  lemma PushesAreSeparated(run: seq<Action>, s: State, i: nat, j: nat) returns (k: nat)
    requires Exec(INIT, run) == Some(s) && ThreadsApart(run)
    requires i < j < |s.log| && s.log[i].Pushed? && s.log[j].Pushed? && s.log[i].gtid == s.log[j].gtid
    ensures i < k < j && s.log[k].Recorded? && s.log[k].entry.gtid == s.log[j].gtid
  {
    Provenance(run, s, j);
    k := LatestAt(s.log[..j], s.log[j].gtid);
    assert s.log[..j][i] == s.log[i] && s.log[..j][k] == s.log[k];
  }

  /** Where push number k is in the log. */
  lemma {:induction false} PushedRecordAt(log: seq<Obs>, k: nat) returns (j: nat)
    requires k < |PushedRecords(log)|
    ensures j < |log| && log[j].Pushed? && log[j].rec == PushedRecords(log)[k] && |PushedRecords(log[..j])| == k
  {
    var n := |log| - 1;
    if k < |PushedRecords(log[..n])| {
      j := PushedRecordAt(log[..n], k);
      assert log[..n][..j] == log[..j];
    } else {
      j := n;
    }
  }

  /** End to end: what the pump prints fresh as push number index is that push in the log, and so the report
      of a recorded entry and of the return that completed it, made by the thread that it names. */
  lemma FreshPrintsAreReports(run: seq<Action>, s: State, i: nat) returns (j: nat)
    requires Exec(INIT, run) == Some(s) && ThreadsApart(run) && i < |s.chan.prints| && s.chan.prints[i].Fresh?
    ensures j < |s.log| && s.log[j].Pushed? && |PushedRecords(s.log[..j])| == s.chan.prints[i].index
    ensures var last := LatestOf(s.log[..j], s.chan.prints[i].rec.gtid);
      && last.Some? && last.value.Recorded? && last.value.entry.gtid == s.log[j].gtid == s.chan.prints[i].rec.gtid
      && s.log[j].rec == s.chan.prints[i].rec && Show(s.log[j].rec) == Report(last.value.entry, s.log[j].at)
  {
    ReachablePipelineInv(s);
    j := PushedRecordAt(s.log, s.chan.prints[i].index);
    Provenance(run, s, j);
  }

  /** The event of a push reaches the ring or is lost, and either can happen. */
  lemma EventReachesRingOrNot(s: State, tid: nat, accepted: bool)
    requires Reachable(s) && tid in s.emitting
    ensures Step(s, Emit(tid, accepted)).Some?
    ensures var c, d := s.chan, Step(s, Emit(tid, accepted)).value.chan;
      && EQ.Count(d.fate, EQ.InRing) == EQ.Count(c.fate, EQ.InRing) + (if accepted then 1 else 0)
      && EQ.Count(d.fate, EQ.Lost) == EQ.Count(c.fate, EQ.Lost) + (if accepted then 0 else 1)
      && d.queue == c.queue && d.prints == c.prints
  {
    ReachablePipelineInv(s);
    EQ.CountUpdate(s.chan.fate, s.emitting[tid], if accepted then EQ.InRing else EQ.Lost);
  }

  /** Events and records balance in every reachable state; a thread in emitting accounts for one push that
      has not been signalled. */
  lemma PipelineAccounting(s: State)
    requires Reachable(s)
    ensures s.chan.emptyReads + EQ.Count(s.chan.fate, EQ.InRing) + EQ.Count(s.chan.fate, EQ.Held) + |s.emitting|
      + EQ.Count(s.chan.fate, EQ.Lost) == s.chan.evicted + |s.chan.queue|
    ensures s.chan.emptyReads <= s.chan.evicted && |s.chan.queue| <= 5120
    ensures s.chan.popped + s.chan.evicted + |s.chan.queue| == |PushedRecords(s.log)|
  {
    ReachablePipelineInv(s);
    EQ.Balance(s.chan);
  }

  // ----- one record per call -----

  /** The firings of thread g, out of an interleaved run. */
  function FiringsOf(run: seq<Action>, g: U64): seq<Action> {
    if run == [] then []
    else if Fires(run[0]) && run[0].gtid == g then [run[0]] + FiringsOf(run[1..], g)
    else FiringsOf(run[1..], g)
  }

  /** One call of dispatch_command by thread g under repeated attachment: k entries, then m returns. */
  ghost predicate IsCall(f: seq<Action>, command: nat, k: nat, m: nat) {
    && |f| == k + m
    && (forall i :: 0 <= i < k ==> f[i].FireEntry? && f[i].command == command)
    && (forall i :: k <= i < k + m ==> f[i].FireReturn?)
  }

  // No other thread of the run has the id of g.
  predicate OthersApart(run: seq<Action>, g: U64) {
    forall i :: 0 <= i < |run| && Fires(run[i]) && run[i].gtid != g ==>
      run[i].gtid % 0x1_0000_0000 != g % 0x1_0000_0000
  }

  function PushesOf(log: seq<Obs>, g: U64): nat {
    if log == [] then 0
    else
      var o := log[|log| - 1];
      PushesOf(log[..|log| - 1], g) + if o.Pushed? && o.gtid == g then 1 else 0
  }

  /** All along the run the process of g is registered. */
  predicate Served(s: State, run: seq<Action>, g: U64)
    decreases |run|
  {
    && g / 0x1_0000_0000 in s.maps.clusters
    && (run == [] || Step(s, run[0]).None? || Served(Step(s, run[0]).value, run[1..], g))
  }

  // There is a slot for the thread, its own or a free one.
  predicate SlotFree(m: Maps, g: U64) { g % 0x1_0000_0000 in m.slots || |m.slots| < 1024 }

  /** There is a slot for thread g when it first fires its entry in the run. */
  predicate RoomAtEntry(s: State, run: seq<Action>, g: U64)
    decreases |run|
  {
    && run != []
    && if run[0].FireEntry? && run[0].gtid == g then SlotFree(s.maps, g)
       else Step(s, run[0]).Some? && RoomAtEntry(Step(s, run[0]).value, run[1..], g)
  }

  /** A full table without a slot for g stays so, since no handler ever removes a slot. */
  lemma NoRoomStays(s: State, a: Action, g: U64)
    requires Step(s, a).Some? && !SlotFree(s.maps, g)
    ensures !SlotFree(Step(s, a).value.maps, g)
  {
  }

  lemma {:induction false} NoRoomLater(s: State, run: seq<Action>, g: U64)
    requires !SlotFree(s.maps, g)
    ensures !RoomAtEntry(s, run, g)
    decreases |run|
  {
    if run != [] && Step(s, run[0]).Some? {
      NoRoomStays(s, run[0], g);
      NoRoomLater(Step(s, run[0]).value, run[1..], g);
    }
  }

  lemma PushesGrow(s: State, a: Action, t: State, g: U64)
    requires Step(s, a) == Some(t)
    ensures PushesOf(t.log, g) == PushesOf(s.log, g)
      + if |t.log| > |s.log| && t.log[|s.log|].Pushed? && a.gtid == g then 1 else 0
  {
    LogGrows(s, a, t);
  }

  lemma OthersLeaveTheSlot(s: State, a: Action, g: U64)
    requires Step(s, a).Some? && !(Fires(a) && a.gtid == g)
    requires Fires(a) ==> a.gtid % 0x1_0000_0000 != g % 0x1_0000_0000
    ensures var t := Step(s, a).value;
      && (Pending(t.maps, g % 0x1_0000_0000) <==> Pending(s.maps, g % 0x1_0000_0000))
      && PushesOf(t.log, g) == PushesOf(s.log, g)
  {
    PushesGrow(s, a, Step(s, a).value, g);
  }

  lemma FiringsMoveTheSlot(s: State, a: Action, g: U64)
    requires Step(s, a).Some? && Fires(a) && a.gtid == g && g / 0x1_0000_0000 in s.maps.clusters
    ensures var t, tid := Step(s, a).value, g % 0x1_0000_0000;
      && (Pending(t.maps, tid) <==>
            a.FireEntry? && (Pending(s.maps, tid) || (a.command == 3 && SlotFree(s.maps, g))))
      && PushesOf(t.log, g) == PushesOf(s.log, g) + if a.FireReturn? && Pending(s.maps, tid) then 1 else 0
  {
    PushesGrow(s, a, Step(s, a).value, g);
  }

  lemma {:induction false} FirstFiring(run: seq<Action>, g: U64)
    requires run != []
    ensures Fires(run[0]) && run[0].gtid == g ==>
      FiringsOf(run, g) != [] && FiringsOf(run, g)[0] == run[0] && FiringsOf(run, g)[1..] == FiringsOf(run[1..], g)
    ensures !(Fires(run[0]) && run[0].gtid == g) ==> FiringsOf(run, g) == FiringsOf(run[1..], g)
  {
  }

  /** What the entry firings leave behind for the first return to push: 3 is COM_QUERY. */
  predicate WillPush(s: State, run: seq<Action>, g: U64, command: nat, k: nat) {
    Pending(s.maps, g % 0x1_0000_0000) || (k >= 1 && command == 3 && RoomAtEntry(s, run, g))
  }

  /** However often the two probes are attached, and however its firings interleave with those of threads
      with other ids, a call pushes one record if it is a query whose thread finds a slot or if the slot of
      its thread was pending when it began, and none otherwise. */
  lemma {:induction false} OneRecordPerCall(s: State, run: seq<Action>, g: U64, command: nat, k: nat, m: nat)
    requires Exec(s, run).Some? && Served(s, run, g) && OthersApart(run, g)
    requires IsCall(FiringsOf(run, g), command, k, m)
    ensures PushesOf(Exec(s, run).value.log, g) == PushesOf(s.log, g)
      + if m >= 1 && WillPush(s, run, g, command, k) then 1 else 0
    ensures Pending(Exec(s, run).value.maps, g % 0x1_0000_0000) <==> m == 0 && WillPush(s, run, g, command, k)
    decreases |run|
  {
    if run != [] {
      var a, t := run[0], Step(s, run[0]).value;
      FirstFiring(run, g);
      assert forall i :: 0 <= i < |run[1..]| ==> run[1..][i] == run[i + 1];
      if Fires(a) && a.gtid == g {
        FiringsMoveTheSlot(s, a, g);
        if a.FireEntry? {
          OneRecordPerCall(t, run[1..], g, command, k - 1, m);
          if !SlotFree(s.maps, g) {
            NoRoomStays(s, a, g);
            NoRoomLater(t, run[1..], g);
          }
        } else {
          OneRecordPerCall(t, run[1..], g, command, 0, m - 1);
        }
      } else {
        OthersLeaveTheSlot(s, a, g);
        OneRecordPerCall(t, run[1..], g, command, k, m);
      }
    }
  }

  function Tids(log: seq<Obs>): set<nat> {
    set o | o in log :: GtidOf(o) % 0x1_0000_0000
  }

  lemma {:induction false} LatestIff(log: seq<Obs>, tid: nat)
    ensures Latest(log, tid).Some? <==> tid in Tids(log)
  {
    if log != [] {
      var most, last := log[..|log| - 1], log[|log| - 1];
      assert log == most + [last];
      LatestIff(most, tid);
    }
  }

  /** A thread finds a slot exactly when it has been recorded before, or fewer than 1024 threads have ever
      been: slots are never given back. */
  lemma RoomIff(s: State, g: U64)
    requires Reachable(s)
    ensures SlotFree(s.maps, g) <==> g % 0x1_0000_0000 in Tids(s.log) || |Tids(s.log)| < 1024
    ensures HasRoom(s.maps, Tid(g)) <==> SlotFree(s.maps, g)
  {
    ReachablePipelineInv(s);
    forall other
      ensures other in s.maps.slots <==> other in Tids(s.log)
    {
      assert SlotInv(s, other);
      LatestIff(s.log, other);
    }
    assert s.maps.slots.Keys == Tids(s.log);
    assert |s.maps.slots| == |s.maps.slots.Keys|;
  }

  /** All along the run the process of g is not registered. */
  predicate Unserved(s: State, run: seq<Action>, g: U64)
    decreases |run|
  {
    && g / 0x1_0000_0000 !in s.maps.clusters
    && (run == [] || Step(s, run[0]).None? || Unserved(Step(s, run[0]).value, run[1..], g))
  }

  /** What thread g has done to its slot. */
  function Deeds(log: seq<Obs>, g: U64): seq<Obs> {
    if log == [] then []
    else
      var o := log[|log| - 1];
      Deeds(log[..|log| - 1], g) + if GtidOf(o) == g then [o] else []
  }

  /** The handlers of such a thread change no map. */
  lemma UnregisteredStep(s: State, a: Action, t: State, g: U64)
    requires Step(s, a) == Some(t) && g / 0x1_0000_0000 !in s.maps.clusters
    ensures Deeds(t.log, g) == Deeds(s.log, g)
    ensures Fires(a) && a.gtid == g ==> t.maps == s.maps
  {
    LogGrows(s, a, t);
  }

  /** A thread of a process that is not in the cluster map records and pushes nothing, whatever it executes. */
  lemma {:induction false} UnregisteredIsSilent(s: State, run: seq<Action>, g: U64)
    requires Exec(s, run).Some? && Unserved(s, run, g)
    ensures Deeds(Exec(s, run).value.log, g) == Deeds(s.log, g)
    decreases |run|
  {
    if run != [] {
      UnregisteredStep(s, run[0], Step(s, run[0]).value, g);
      UnregisteredIsSilent(Step(s, run[0]).value, run[1..], g);
    }
  }
}
