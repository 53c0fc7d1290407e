/** The entry and return handlers of mysqld_probe.c and the maps they share.

    User memory is an oracle: a handler is given the bytes its reads deliver. The record that a handler works
    on has every field of struct db_ctx.
 */
module Probe {
  import opened Wrappers
  import opened Bytes
  import EventQueue

  const COM_QUERY: nat := 3
  const PENDING: int := 0xf
  const SLOTS: nat := 1024           // max_entries of thread_db_ctx_hash

  const COMM_LEN: nat := 16
  const CLUSTER_NAME_LEN: nat := 64
  const USER_LEN: nat := 32
  const HOST_LEN: nat := 64
  const IP_LEN: nat := 46
  const QUERY_LEN: nat := 1024

  datatype DbCtx = DbCtx(
    gtid: U64,
    costTime: U64,
    thdAddr: int,
    timestamp: U64,
    comm: seq<Byte>,
    clusterName: seq<Byte>,
    user: seq<Byte>,
    privUser: seq<Byte>,
    host: seq<Byte>,
    ipaddr: seq<Byte>,
    database: seq<Byte>,      // declared with the width of an address
    threadId: nat,
    queryId: int,
    queryLen: U64,
    query: seq<Byte>,
    previousFoundRows: U64,
    currentFoundRows: U64,
    affectedRows: U64,
    sentRowCount: U64,
    rowCountFunc: U64,
    sqlErrno: nat,
    killed: int,
    peerPort: nat,
    processed: int)

  const ZERO_CTX: DbCtx := DbCtx(
    0, 0, 0, 0, Zeros(COMM_LEN), Zeros(CLUSTER_NAME_LEN), Zeros(USER_LEN), Zeros(USER_LEN), Zeros(HOST_LEN),
    Zeros(IP_LEN), Zeros(IP_LEN), 0, 0, 0, Zeros(QUERY_LEN), 0, 0, 0, 0, 0, 0, 0, 0, 0)

  // What the reads of the entry handler deliver. The user names are the texts found at their addresses,
  // up to their NUL and of any length; every other read fills its whole field.
  datatype EntryReads = EntryReads(
    comm: seq<Byte>,
    clusterName: seq<Byte>,
    query: seq<Byte>,
    queryLen: U64,
    thd: int,
    threadId: nat,
    queryId: int,
    database: seq<Byte>,
    timestamp: U64,
    user: seq<Byte>,
    privUser: seq<Byte>,
    host: seq<Byte>,
    ipaddr: seq<Byte>,
    peerPort: nat)

  datatype ReturnReads = ReturnReads(
    previousFoundRows: U64,
    currentFoundRows: U64,
    affectedRows: U64,
    sentRowCount: U64,
    rowCountFunc: U64,
    sqlErrno: nat,
    killed: int)

  predicate Text(bs: seq<Byte>) { 0 !in bs }

  // The two fields written by string copies have room for their NUL.
  predicate Sized(d: DbCtx) { |d.user| == USER_LEN && |d.privUser| == USER_LEN }

  function Tid(gtid: U64): nat { gtid % TWO32 }

  function Pid(gtid: U64): nat { gtid / TWO32 }

  /** bpf_probe_read_str: the text cut to the field, a NUL, and the rest of the field as it was. */
  function WriteStr(dst: seq<Byte>, text: seq<Byte>): (r: seq<Byte>)
    requires |dst| > 0
    ensures |r| == |dst|
  {
    var n := Min(|text|, |dst| - 1);
    text[..n] + [0] + dst[n + 1..]
  }

  /** The scratch record after the entry handler has filled it. */
  function Fill(scratch: DbCtx, gtid: U64, now: U64, r: EntryReads): DbCtx
    requires Sized(scratch)
  {
    scratch.(gtid := gtid, costTime := now, comm := r.comm, clusterName := r.clusterName, query := r.query,
             queryLen := r.queryLen, thdAddr := r.thd, threadId := r.threadId, queryId := r.queryId,
             database := r.database, timestamp := r.timestamp, user := WriteStr(scratch.user, r.user),
             privUser := WriteStr(scratch.privUser, r.privUser), host := r.host, ipaddr := r.ipaddr,
             peerPort := r.peerPort, processed := PENDING)
  }

  /** The slot of a thread after the return handler has completed it; the subtraction is on u64. */
  function Finish(slot: DbCtx, now: U64, r: ReturnReads): DbCtx {
    slot.(previousFoundRows := r.previousFoundRows, currentFoundRows := r.currentFoundRows,
          affectedRows := r.affectedRows, sentRowCount := r.sentRowCount, rowCountFunc := r.rowCountFunc,
          sqlErrno := r.sqlErrno, killed := r.killed, costTime := (now - slot.costTime) % TWO64, processed := 0)
  }

  type Cpu = nat

  // The maps of the probe but for the queue. A CPU whose scratch was never written holds zeros.
  datatype Maps = Maps(clusters: set<nat>, scratch: map<Cpu, DbCtx>, slots: map<nat, DbCtx>)

  function Scratch(m: Maps, cpu: Cpu): DbCtx { if cpu in m.scratch then m.scratch[cpu] else ZERO_CTX }

  ghost predicate AllSized(m: Maps) {
    forall cpu :: cpu in m.scratch ==> Sized(m.scratch[cpu])
  }

  /** Whether the entry handler gets as far as recording the call. */
  predicate Records(m: Maps, gtid: U64, command: nat) {
    Pid(gtid) in m.clusters && command == COM_QUERY
  }

  // bpf_map_update_elem with BPF_ANY fails on a new key in a full map.
  predicate HasRoom(m: Maps, tid: nat) { tid in m.slots || |m.slots| < SLOTS }

  /** mysql57_query. */
  function OnEntry(m: Maps, cpu: Cpu, gtid: U64, command: nat, now: U64, r: EntryReads): Maps
    requires Sized(Scratch(m, cpu))
  {
    if !Records(m, gtid, command) then m
    else
      var d := Fill(Scratch(m, cpu), gtid, now, r);
      m.(scratch := m.scratch[cpu := d], slots := if HasRoom(m, Tid(gtid)) then m.slots[Tid(gtid) := d] else m.slots)
  }

  /** Whether the return handler pushes a record. */
  predicate Pushes(m: Maps, gtid: U64) {
    Pid(gtid) in m.clusters && Tid(gtid) in m.slots && m.slots[Tid(gtid)].processed == PENDING
  }

  /** mysql57_query_return up to its push: the maps and the record pushed, if any. */
  function OnReturn(m: Maps, gtid: U64, now: U64, r: ReturnReads): (Maps, Option<DbCtx>) {
    if !Pushes(m, gtid) then (m, None)
    else
      var d := Finish(m.slots[Tid(gtid)], now, r);
      (m.(slots := m.slots[Tid(gtid) := d]), Some(d))
  }

  /** The handlers as they run: the scratch and the slot are filled field by field. */
  class MysqldProbe {
    var clusters: set<nat>
    var scratch: map<Cpu, DbCtx>
    var slots: map<nat, DbCtx>
    var queue: seq<DbCtx>

    ghost function View(): Maps
      reads this
    {
      Maps(clusters, scratch, slots)
    }

    method Query(cpu: Cpu, gtid: U64, command: nat, now: U64, r: EntryReads)
      requires AllSized(View())
      modifies this`scratch, this`slots
      ensures AllSized(View()) && View() == OnEntry(old(View()), cpu, gtid, command, now, r)
    {
      if gtid / TWO32 !in clusters {
        return;
      }
      if command != COM_QUERY {
        return;
      }
      var dbCtx := if cpu in scratch then scratch[cpu] else ZERO_CTX;
      dbCtx := dbCtx.(gtid := gtid);
      dbCtx := dbCtx.(costTime := now);
      dbCtx := dbCtx.(comm := r.comm);
      dbCtx := dbCtx.(clusterName := r.clusterName);
      dbCtx := dbCtx.(query := r.query);
      dbCtx := dbCtx.(queryLen := r.queryLen);
      dbCtx := dbCtx.(thdAddr := r.thd);
      dbCtx := dbCtx.(threadId := r.threadId);
      dbCtx := dbCtx.(queryId := r.queryId);
      dbCtx := dbCtx.(database := r.database);
      dbCtx := dbCtx.(timestamp := r.timestamp);
      dbCtx := dbCtx.(user := WriteStr(dbCtx.user, r.user));
      dbCtx := dbCtx.(privUser := WriteStr(dbCtx.privUser, r.privUser));
      dbCtx := dbCtx.(host := r.host);
      dbCtx := dbCtx.(ipaddr := r.ipaddr);
      dbCtx := dbCtx.(peerPort := r.peerPort);
      dbCtx := dbCtx.(processed := PENDING);
      scratch := scratch[cpu := dbCtx];
      if gtid % TWO32 in slots || |slots| < SLOTS {
        slots := slots[gtid % TWO32 := dbCtx];
      }
    }

    method QueryReturn(gtid: U64, now: U64, r: ReturnReads) returns (emits: bool)
      modifies this`slots, this`queue
      ensures emits == Pushes(old(View()), gtid)
      ensures View() == OnReturn(old(View()), gtid, now, r).0
      ensures var pushed := OnReturn(old(View()), gtid, now, r).1;
        queue == if pushed.None? then old(queue) else EventQueue.Pushed(old(queue), pushed.value)
    {
      if gtid / TWO32 !in clusters {
        return false;
      }
      if gtid % TWO32 !in slots {
        return false;
      }
      var dbCtx := slots[gtid % TWO32];
      if dbCtx.processed != PENDING {
        return false;
      }
      dbCtx := dbCtx.(previousFoundRows := r.previousFoundRows);
      dbCtx := dbCtx.(currentFoundRows := r.currentFoundRows);
      dbCtx := dbCtx.(affectedRows := r.affectedRows);
      dbCtx := dbCtx.(sentRowCount := r.sentRowCount);
      dbCtx := dbCtx.(rowCountFunc := r.rowCountFunc);
      dbCtx := dbCtx.(sqlErrno := r.sqlErrno);
      dbCtx := dbCtx.(killed := r.killed);
      dbCtx := dbCtx.(costTime := (now - dbCtx.costTime) % TWO64);
      dbCtx := dbCtx.(processed := 0);
      slots := slots[gtid % TWO32 := dbCtx];
      if |queue| >= EventQueue.CAPACITY {
        queue := queue[1..] + [dbCtx];
      } else {
        queue := queue + [dbCtx];
      }
      emits := true;
    }
  }

  // ----- what is displayed of a record -----

  // The fields that Print shows, with the texts cut at their first NUL.
  datatype Shown = Shown(
    gtid: U64, costTime: int, timestamp: U64, comm: seq<Byte>, clusterName: seq<Byte>, user: seq<Byte>,
    privUser: seq<Byte>, host: seq<Byte>, ipaddr: seq<Byte>, database: seq<Byte>, threadId: nat, queryId: int,
    queryLen: U64, query: seq<Byte>, rows: ReturnReads, peerPort: nat)

  function Show(d: DbCtx): Shown {
    Shown(d.gtid, d.costTime, d.timestamp, UntilNul(d.comm), UntilNul(d.clusterName), UntilNul(d.user),
          UntilNul(d.privUser), UntilNul(d.host), UntilNul(d.ipaddr), UntilNul(d.database), d.threadId, d.queryId,
          d.queryLen, UntilNul(d.query),
          ReturnReads(d.previousFoundRows, d.currentFoundRows, d.affectedRows, d.sentRowCount, d.rowCountFunc,
                      d.sqlErrno, d.killed),
          d.peerPort)
  }

  // A recorded firing of the entry handler, and a firing of the return handler.
  datatype Entry = Entry(gtid: U64, now: U64, seen: EntryReads)
  datatype Return = Return(now: U64, seen: ReturnReads)

  /** What a record of this entry and this return has to show. */
  function Report(e: Entry, r: Return): Shown {
    Shown(e.gtid, r.now - e.now, e.seen.timestamp, UntilNul(e.seen.comm), UntilNul(e.seen.clusterName),
          e.seen.user[..Min(|e.seen.user|, 31)], e.seen.privUser[..Min(|e.seen.privUser|, 31)],
          UntilNul(e.seen.host), UntilNul(e.seen.ipaddr), UntilNul(e.seen.database), e.seen.threadId,
          e.seen.queryId, e.seen.queryLen, UntilNul(e.seen.query), r.seen, e.seen.peerPort)
  }

  lemma WriteStrShows(dst: seq<Byte>, text: seq<Byte>)
    requires |dst| > 0 && Text(text)
    ensures UntilNul(WriteStr(dst, text)) == text[..Min(|text|, |dst| - 1)]
    ensures forall i :: |text| < i < |dst| ==> WriteStr(dst, text)[i] == dst[i]
  {
    var n := Min(|text|, |dst| - 1);
    assert WriteStr(dst, text) == text[..n] + ([0] + dst[n + 1..]);
    UntilNulCuts(text[..n], [0] + dst[n + 1..]);
  }

  // The user names that the entry handler reads are texts.
  predicate Readable(r: EntryReads) { Text(r.user) && Text(r.privUser) }

  /** The displayed record depends on the entry and the return alone, not on what the scratch of the CPU
      held before; with a clock that does not go back its cost is the time between the two. */
  lemma ScratchIndependence(scratch: DbCtx, e: Entry, r: Return)
    requires Sized(scratch) && Readable(e.seen) && e.now <= r.now
    ensures Show(Finish(Fill(scratch, e.gtid, e.now, e.seen), r.now, r.seen)) == Report(e, r)
  {
    WriteStrShows(scratch.user, e.seen.user);
    WriteStrShows(scratch.privUser, e.seen.privUser);
  }
}
