/** The registry of database instances and its image in the kernel cluster map. */
module Registry {
  import opened Wrappers
  import opened Bytes
  import NameCodec

  const CLUSTERS: nat := 1024    // max_entries of the cluster map

  type Id = string
  type Offsets = seq<nat>        // a [32]uint64

  datatype Instance = Instance(
    clusterName: seq<Byte>, pod: string, containerId: string, version: string, pid: int)

  // The value of struct cluster.
  datatype Cluster = Cluster(name: NameCodec.Name, offsets: Offsets)

  type Programs = map<string, Offsets>

  datatype Stores = Stores(instances: map<Id, Instance>, clusters: map<nat, Cluster>)

  function MakeId(imageId: string, containerId: string): Id { imageId + "|" + containerId }

  function IdOf(t: Instance): Id { MakeId(t.version, t.containerId) }

  // uint32(t.GetPid())
  function Key(pid: int): nat { pid % TWO32 }

  function Value(t: Instance, programs: Programs): Cluster
    requires t.version in programs
  {
    Cluster(NameCodec.Encode(t.clusterName), programs[t.version])
  }

  // Updating a hash map fails on a new key when it is full.
  predicate UpdateWorks(s: Stores, t: Instance) { Key(t.pid) in s.clusters || |s.clusters| < CLUSTERS }

  /** AttachInstance: the instance is registered even when the map cannot take its cluster. */
  function Attach(s: Stores, t: Instance, programs: Programs): Stores
    requires t.version in programs
  {
    Stores(s.instances[IdOf(t) := t],
           if UpdateWorks(s, t) then s.clusters[Key(t.pid) := Value(t, programs)] else s.clusters)
  }

  predicate DeleteWorks(s: Stores, id: Id) { id in s.instances ==> Key(s.instances[id].pid) in s.clusters }

  /** DetachInstance: the instance stays when its cluster is not in the map. */
  function Detach(s: Stores, id: Id): Stores {
    if id in s.instances && DeleteWorks(s, id)
    then Stores(s.instances - {id}, s.clusters - {Key(s.instances[id].pid)})
    else s
  }

  // ----- agreement of the two stores -----

  // What follows says in plain terms what the stores hold: an instance is named by its version, a bar and its
  // container, and its cluster is found under the low word of its pid.

  predicate KnownVersions(s: Stores, programs: Programs) {
    forall id :: id in s.instances ==>
      s.instances[id].version in programs && s.instances[id].version + "|" + s.instances[id].containerId == id
  }

  ghost predicate Owned(s: Stores, k: nat) {
    exists id :: id in s.instances && s.instances[id].pid % 0x1_0000_0000 == k
  }

  // A name cut to 64 bytes or padded with NULs.
  function PaddedAt(name: seq<Byte>, i: nat): Byte { if i < |name| then name[i] else 0 }

  /** The cluster holds the name of the instance and the offsets of its version. */
  predicate Describes(c: Cluster, t: Instance, programs: Programs)
    requires t.version in programs
  {
    c.offsets == programs[t.version] && forall i :: 0 <= i < 64 ==> c.name[i] == PaddedAt(t.clusterName, i)
  }

  lemma ValueDescribes(t: Instance, programs: Programs)
    requires t.version in programs
    ensures Describes(Value(t, programs), t, programs)
  {
  }

  lemma DescribesOne(c: Cluster, d: Cluster, t: Instance, programs: Programs)
    requires t.version in programs && Describes(c, t, programs) && Describes(d, t, programs)
    ensures c == d
  {
  }

  // The value stored under the pid of this instance is its own.
  predicate Mirrored(s: Stores, id: Id, programs: Programs)
    requires id in s.instances && s.instances[id].version in programs
  {
    var t := s.instances[id];
    t.pid % 0x1_0000_0000 in s.clusters && Describes(s.clusters[t.pid % 0x1_0000_0000], t, programs)
  }

  /** The keys of the cluster map are the pids of the instances, and each value is that of its instance. */
  ghost predicate Agree(s: Stores, programs: Programs) {
    && KnownVersions(s, programs)
    && (forall id :: id in s.instances ==> Mirrored(s, id, programs))
    && (forall k :: k in s.clusters ==> Owned(s, k))
  }

  ghost predicate SharedKey(s: Stores, id: Id, k: nat) {
    exists other :: other in s.instances && other != id && s.instances[other].pid % 0x1_0000_0000 == k
  }

  // Two instances that the same cluster describes.
  predicate Alike(t: Instance, u: Instance, programs: Programs)
    requires t.version in programs && u.version in programs
  {
    && programs[t.version] == programs[u.version]
    && forall i :: 0 <= i < 64 ==> PaddedAt(t.clusterName, i) == PaddedAt(u.clusterName, i)
  }

  // The map takes the cluster of the instance.
  predicate RoomFor(s: Stores, t: Instance) { t.pid % 0x1_0000_0000 in s.clusters || |s.clusters| < 1024 }

  // What can be checked before an attach: the map takes the cluster, the id leaves no old pid behind, and
  // no other instance with the same pid has another value.
  ghost predicate AttachIsSafe(s: Stores, t: Instance, programs: Programs)
    requires KnownVersions(s, programs) && t.version in programs
  {
    var id := t.version + "|" + t.containerId;
    && RoomFor(s, t)
    && (id in s.instances && s.instances[id].pid % 0x1_0000_0000 != t.pid % 0x1_0000_0000 ==>
          SharedKey(s, id, s.instances[id].pid % 0x1_0000_0000))
    && (forall other :: other in s.instances && other != id ==>
          (s.instances[other].pid % 0x1_0000_0000 == t.pid % 0x1_0000_0000 ==>
             Alike(s.instances[other], t, programs)))
  }

  /** What an attach does to any stores: the instance is registered even when the map is full; its cluster is
      stored if the map takes it, and no other cluster changes. */
  lemma AttachDoes(s: Stores, t: Instance, programs: Programs)
    requires t.version in programs
    ensures var u, k := Attach(s, t, programs), t.pid % 0x1_0000_0000;
      && u.instances == s.instances[t.version + "|" + t.containerId := t]
      && if RoomFor(s, t)
         then k in u.clusters && Describes(u.clusters[k], t, programs) && u.clusters == s.clusters[k := u.clusters[k]]
         else u.clusters == s.clusters
  {
    ValueDescribes(t, programs);
  }

  /** What a detach does to any stores: instance and cluster go together; nothing changes when the id is not
      registered or the map has no cluster for its pid. */
  lemma DetachDoes(s: Stores, id: Id)
    ensures if id in s.instances && s.instances[id].pid % 0x1_0000_0000 in s.clusters
      then Detach(s, id) == Stores(s.instances - {id}, s.clusters - {s.instances[id].pid % 0x1_0000_0000})
      else Detach(s, id) == s
  {
  }

  lemma SafeAttachOwns(s: Stores, t: Instance, programs: Programs, k: nat)
    requires Agree(s, programs) && t.version in programs && AttachIsSafe(s, t, programs)
    requires k in Attach(s, t, programs).clusters
    ensures Owned(Attach(s, t, programs), k)
  {
    var u := Attach(s, t, programs);
    if k == t.pid % 0x1_0000_0000 {
      assert IdOf(t) in u.instances;
    } else {
      assert Owned(s, k);
      var id :| id in s.instances && s.instances[id].pid % 0x1_0000_0000 == k;
      if id == IdOf(t) {
        var other :| other in s.instances && other != id && s.instances[other].pid % 0x1_0000_0000 == k;
        assert other in u.instances;
      } else {
        assert id in u.instances;
      }
    }
  }

  lemma SafeAttachMirrors(s: Stores, t: Instance, programs: Programs)
    requires Agree(s, programs) && t.version in programs && AttachIsSafe(s, t, programs)
    ensures var u := Attach(s, t, programs);
      KnownVersions(u, programs) && forall id :: id in u.instances ==> Mirrored(u, id, programs)
  {
    var u := Attach(s, t, programs);
    ValueDescribes(t, programs);
    forall id | id in u.instances && id != IdOf(t)
      ensures Mirrored(u, id, programs)
    {
      assert Mirrored(s, id, programs);
    }
  }

  lemma SafeAttachAgrees(s: Stores, t: Instance, programs: Programs)
    requires Agree(s, programs) && t.version in programs && AttachIsSafe(s, t, programs)
    ensures Agree(Attach(s, t, programs), programs)
  {
    SafeAttachMirrors(s, t, programs);
    forall k | k in Attach(s, t, programs).clusters
      ensures Owned(Attach(s, t, programs), k)
    {
      SafeAttachOwns(s, t, programs, k);
    }
  }

  lemma AgreeingAttachWasSafe(s: Stores, t: Instance, programs: Programs)
    requires Agree(s, programs) && t.version in programs && Agree(Attach(s, t, programs), programs)
    ensures AttachIsSafe(s, t, programs)
  {
    var u := Attach(s, t, programs);
    assert u.instances[IdOf(t)] == t;
    assert Mirrored(u, IdOf(t), programs);
    if IdOf(t) in s.instances && s.instances[IdOf(t)].pid % 0x1_0000_0000 != t.pid % 0x1_0000_0000 {
      var k := s.instances[IdOf(t)].pid % 0x1_0000_0000;
      assert Mirrored(s, IdOf(t), programs);
      assert Owned(u, k);
      var other :| other in u.instances && u.instances[other].pid % 0x1_0000_0000 == k;
      assert other in s.instances && other != IdOf(t);
    }
    forall other | other in s.instances && other != IdOf(t)
        && s.instances[other].pid % 0x1_0000_0000 == t.pid % 0x1_0000_0000
      ensures Alike(s.instances[other], t, programs)
    {
      assert Mirrored(u, other, programs);
    }
  }

  /** Attaching to agreeing stores leaves them agreeing exactly when it was safe; in particular never when
      the map is full and the pid is new. */
  lemma AttachAgreesIff(s: Stores, t: Instance, programs: Programs)
    requires Agree(s, programs) && t.version in programs
    ensures Agree(Attach(s, t, programs), programs) <==> AttachIsSafe(s, t, programs)
    ensures Attach(s, t, programs).instances == s.instances[t.version + "|" + t.containerId := t]
  {
    if AttachIsSafe(s, t, programs) {
      SafeAttachAgrees(s, t, programs);
    }
    if Agree(Attach(s, t, programs), programs) {
      AgreeingAttachWasSafe(s, t, programs);
    }
  }

  /** Detaching from agreeing stores never fails, and leaves them agreeing exactly when the instance was
      the only one with its pid. */
  lemma DetachAgreesIff(s: Stores, id: Id, programs: Programs)
    requires Agree(s, programs)
    ensures DeleteWorks(s, id) && Detach(s, id).instances == s.instances - {id}
    ensures Detach(s, id).clusters ==
      if id in s.instances then s.clusters - {s.instances[id].pid % 0x1_0000_0000} else s.clusters
    ensures Agree(Detach(s, id), programs) <==>
      id in s.instances ==> !SharedKey(s, id, s.instances[id].pid % 0x1_0000_0000)
  {
    if id in s.instances {
      assert Mirrored(s, id, programs);
      var u := Detach(s, id);
      var k := s.instances[id].pid % 0x1_0000_0000;
      if SharedKey(s, id, k) {
        var other :| other in s.instances && other != id && s.instances[other].pid % 0x1_0000_0000 == k;
        assert other in u.instances && k !in u.clusters;
        assert !Mirrored(u, other, programs);
      } else {
        LoneDetachAgrees(s, id, programs);
      }
    }
  }

  lemma LoneDetachAgrees(s: Stores, id: Id, programs: Programs)
    requires Agree(s, programs) && id in s.instances && !SharedKey(s, id, s.instances[id].pid % 0x1_0000_0000)
    ensures Agree(Detach(s, id), programs)
  {
    assert Mirrored(s, id, programs);
    var u := Detach(s, id);
    forall other | other in u.instances
      ensures Mirrored(u, other, programs)
    {
      assert Mirrored(s, other, programs);
    }
    forall k | k in u.clusters
      ensures Owned(u, k)
    {
      assert Owned(s, k);
      var other :| other in s.instances && s.instances[other].pid % 0x1_0000_0000 == k;
      assert other in u.instances;
    }
  }

  datatype Op = AttachOp(t: Instance) | DetachOp(id: Id)

  predicate KnownOps(ops: seq<Op>, programs: Programs) {
    forall i :: 0 <= i < |ops| && ops[i].AttachOp? ==> ops[i].t.version in programs
  }

  function Run(s: Stores, ops: seq<Op>, programs: Programs): Stores
    requires KnownOps(ops, programs)
    decreases |ops|
  {
    if ops == [] then s
    else
      var before := Run(s, ops[..|ops| - 1], programs);
      match ops[|ops| - 1]
      case AttachOp(t) => Attach(before, t, programs)
      case DetachOp(id) => Detach(before, id)
  }

  predicate DistinctPids(pidOf: map<Id, int>) {
    forall a, b :: a in pidOf && b in pidOf && pidOf[a] % 0x1_0000_0000 == pidOf[b] % 0x1_0000_0000 ==> a == b
  }

  // Each id keeps one pid, and two ids never share one.
  ghost predicate FixedPids(ops: seq<Op>, pidOf: map<Id, int>) {
    && (forall i :: 0 <= i < |ops| && ops[i].AttachOp? ==>
          var id := ops[i].t.version + "|" + ops[i].t.containerId;
          id in pidOf && pidOf[id] == ops[i].t.pid)
    && DistinctPids(pidOf)
  }

  const NOTHING: Stores := Stores(map[], map[])

  /** Every attach found room in the map at the time it was made. */
  predicate UpdatesWork(ops: seq<Op>, programs: Programs)
    requires KnownOps(ops, programs)
  {
    forall i :: 0 <= i < |ops| && ops[i].AttachOp? ==> RoomFor(Run(NOTHING, ops[..i], programs), ops[i].t)
  }

  lemma FixedPrefix(ops: seq<Op>, pidOf: map<Id, int>, programs: Programs)
    requires ops != [] && KnownOps(ops, programs) && FixedPids(ops, pidOf)
    ensures var most := ops[..|ops| - 1];
      && KnownOps(most, programs) && FixedPids(most, pidOf)
      && (UpdatesWork(ops, programs) ==> UpdatesWork(most, programs))
  {
    var most := ops[..|ops| - 1];
    assert forall i :: 0 <= i < |most| ==> most[..i] == ops[..i] && most[i] == ops[i];
  }

  /** Over every run in which pids are fixed and distinct and the map operations succeed, the two stores
      agree after every operation; so no delete ever misses its key. */
  lemma {:induction false} RunsAgree(ops: seq<Op>, pidOf: map<Id, int>, programs: Programs)
    requires KnownOps(ops, programs) && FixedPids(ops, pidOf) && UpdatesWork(ops, programs)
    ensures var s := Run(NOTHING, ops, programs);
      && Agree(s, programs)
      && (forall id :: id in s.instances ==> id in pidOf && s.instances[id].pid == pidOf[id])
    decreases |ops|
  {
    if ops != [] {
      var most := ops[..|ops| - 1];
      FixedPrefix(ops, pidOf, programs);
      RunsAgree(most, pidOf, programs);
      var s := Run(NOTHING, most, programs);
      match ops[|ops| - 1] {
        case AttachOp(t) =>
          assert RoomFor(s, t);
          SafeAttachAgrees(s, t, programs);
        case DetachOp(id) =>
          DetachAgreesIff(s, id, programs);
      }
    }
  }

  /** With fixed and distinct pids nothing but a full map can make the stores disagree: they agree after
      every operation if and only if every attach found room. */
  lemma RunsAgreeIff(ops: seq<Op>, pidOf: map<Id, int>, programs: Programs)
    requires KnownOps(ops, programs) && FixedPids(ops, pidOf)
    ensures (forall n :: 0 <= n <= |ops| ==> Agree(Run(NOTHING, ops[..n], programs), programs)) <==>
      UpdatesWork(ops, programs)
  {
    if UpdatesWork(ops, programs) {
      forall n | 0 <= n <= |ops|
        ensures Agree(Run(NOTHING, ops[..n], programs), programs)
      {
        PrefixAgrees(ops, n, pidOf, programs);
      }
    } else {
      var i :| 0 <= i < |ops| && ops[i].AttachOp? && !RoomFor(Run(NOTHING, ops[..i], programs), ops[i].t);
      FullMapDisagrees(ops, i, programs);
    }
  }

  lemma PrefixAgrees(ops: seq<Op>, n: nat, pidOf: map<Id, int>, programs: Programs)
    requires KnownOps(ops, programs) && FixedPids(ops, pidOf) && UpdatesWork(ops, programs) && n <= |ops|
    ensures Agree(Run(NOTHING, ops[..n], programs), programs)
  {
    assert forall i :: 0 <= i < n ==> ops[..n][..i] == ops[..i] && ops[..n][i] == ops[i];
    RunsAgree(ops[..n], pidOf, programs);
  }

  lemma FullMapDisagrees(ops: seq<Op>, i: nat, programs: Programs)
    requires KnownOps(ops, programs) && i < |ops| && ops[i].AttachOp?
    requires !RoomFor(Run(NOTHING, ops[..i], programs), ops[i].t)
    ensures !Agree(Run(NOTHING, ops[..i], programs), programs) || !Agree(Run(NOTHING, ops[..i + 1], programs), programs)
  {
    assert ops[..i + 1][..i] == ops[..i];
    var s := Run(NOTHING, ops[..i], programs);
    if Agree(s, programs) {
      AttachAgreesIff(s, ops[i].t, programs);
    }
  }

  lemma OneMoreWorks(ops: seq<Op>, programs: Programs)
    requires ops != [] && KnownOps(ops, programs) && UpdatesWork(ops[..|ops| - 1], programs)
    requires var last := ops[|ops| - 1];
      last.AttachOp? ==> RoomFor(Run(NOTHING, ops[..|ops| - 1], programs), last.t)
    ensures UpdatesWork(ops, programs)
  {
    var most := ops[..|ops| - 1];
    assert forall i :: 0 <= i < |most| ==> most[..i] == ops[..i] && most[i] == ops[i];
  }

  /** Every attach finds room when the map has room for all the ids that the run ever names. */
  lemma {:induction false} SmallRunsWork(ops: seq<Op>, pidOf: map<Id, int>, programs: Programs)
    requires KnownOps(ops, programs) && FixedPids(ops, pidOf) && |pidOf| <= 1024
    ensures UpdatesWork(ops, programs)
    decreases |ops|
  {
    if ops != [] {
      var most := ops[..|ops| - 1];
      FixedPrefix(ops, pidOf, programs);
      SmallRunsWork(most, pidOf, programs);
      RunsAgree(most, pidOf, programs);
      if ops[|ops| - 1].AttachOp? {
        RoomForAll(Run(NOTHING, most, programs), ops[|ops| - 1].t, pidOf, programs);
      }
      OneMoreWorks(ops, programs);
    }
  }

  /** In agreeing stores the kernel finds under the pid of every instance the offsets of its version and a name
      that reads as the name of its cluster, up to 64 bytes or the first NUL. */
  lemma StoredNames(s: Stores, id: Id, programs: Programs)
    requires Agree(s, programs) && id in s.instances
    ensures var t, k := s.instances[id], s.instances[id].pid % 0x1_0000_0000;
      && k in s.clusters && t.version in programs && s.clusters[k].offsets == programs[t.version]
      && UntilNul(s.clusters[k].name) == UntilNul(t.clusterName[..Min(|t.clusterName|, 64)])
  {
    var t, k := s.instances[id], s.instances[id].pid % 0x1_0000_0000;
    assert Mirrored(s, id, programs);
    ValueDescribes(t, programs);
    DescribesOne(s.clusters[k], Value(t, programs), t, programs);
    NameCodec.DecodeEncode(t.clusterName);
  }

  /** The map never holds more than its 1024 entries. */
  lemma {:induction false} MapFits(ops: seq<Op>, programs: Programs)
    requires KnownOps(ops, programs)
    ensures |Run(NOTHING, ops, programs).clusters| <= 1024
    decreases |ops|
  {
    if ops != [] {
      MapFits(ops[..|ops| - 1], programs);
    }
  }

  /** Stores that agree have exactly the pids of the instances as the keys of the cluster map. */
  lemma KeysArePids(s: Stores, programs: Programs)
    requires Agree(s, programs)
    ensures s.clusters.Keys == (set id | id in s.instances :: s.instances[id].pid % 0x1_0000_0000)
  {
    forall k | k in s.clusters.Keys
      ensures k in (set id | id in s.instances :: s.instances[id].pid % 0x1_0000_0000)
    {
      assert Owned(s, k);
    }
    assert forall id :: id in s.instances ==> Mirrored(s, id, programs);
  }

  lemma RoomForAll(s: Stores, t: Instance, pidOf: map<Id, int>, programs: Programs)
    requires Agree(s, programs) && |pidOf| <= 1024 && IdOf(t) in pidOf && pidOf[IdOf(t)] == t.pid
    requires forall id :: id in s.instances ==> id in pidOf && s.instances[id].pid == pidOf[id]
    requires DistinctPids(pidOf)
    ensures RoomFor(s, t)
  {
    if Key(t.pid) !in s.clusters {
      var ids := pidOf.Keys - {IdOf(t)};
      forall k | k in s.clusters.Keys
        ensures exists id :: id in ids && Key(pidOf[id]) == k
      {
        assert Owned(s, k);
        var id :| id in s.instances && Key(s.instances[id].pid) == k;
        assert id in ids;
      }
      NoMoreKeys(s.clusters.Keys, ids, pidOf);
    }
  }

  lemma {:induction false} NoMoreKeys(keys: set<nat>, ids: set<Id>, pidOf: map<Id, int>)
    requires ids <= pidOf.Keys
    requires forall k :: k in keys ==> exists id :: id in ids && Key(pidOf[id]) == k
    ensures |keys| <= |ids|
    decreases |keys|
  {
    if keys != {} {
      var k :| k in keys;
      var id :| id in ids && Key(pidOf[id]) == k;
      forall other | other in keys - {k}
        ensures exists i :: i in ids - {id} && Key(pidOf[i]) == other
      {
        var i :| i in ids && Key(pidOf[i]) == other;
        assert i in ids - {id};
      }
      NoMoreKeys(keys - {k}, ids - {id}, pidOf);
    }
  }

  // ----- pods -----

  // A container status: whether its image names a supported database, and the parsed ids.
  datatype Container = Container(ready: bool, database: bool, imageId: string, containerId: string)

  datatype Pod = Pod(name: string, running: bool, managed: bool, instance: seq<Byte>, containers: seq<Container>)

  function ContainerKey(c: Container): Id { MakeId(c.imageId, c.containerId) }

  predicate Supported(c: Container, programs: Programs) { c.database && c.imageId in programs }

  predicate Unregistered(c: Container, programs: Programs, instances: map<Id, Instance>) {
    c.ready && Supported(c, programs) && ContainerKey(c) !in instances
  }

  predicate Registered(c: Container, programs: Programs, instances: map<Id, Instance>) {
    Supported(c, programs) && ContainerKey(c) in instances
  }

  function FirstUnregistered(cs: seq<Container>, programs: Programs, instances: map<Id, Instance>): Option<Container> {
    if cs == [] then None
    else if Unregistered(cs[0], programs, instances) then Some(cs[0])
    else FirstUnregistered(cs[1..], programs, instances)
  }

  function FirstRegistered(cs: seq<Container>, programs: Programs, instances: map<Id, Instance>): Option<Container> {
    if cs == [] then None
    else if Registered(cs[0], programs, instances) then Some(cs[0])
    else FirstRegistered(cs[1..], programs, instances)
  }

  function NewInstance(pod: Pod, c: Container, pid: int): Instance {
    Instance(pod.instance, pod.name, c.containerId, c.imageId, pid)
  }

  /** The effect of an update event, once the runner has processed what it sent. */
  function Update(s: Stores, pod: Pod, programs: Programs, pids: map<string, int>): Stores {
    if !pod.running || !pod.managed then s
    else match FirstUnregistered(pod.containers, programs, s.instances)
      case None => s
      case Some(c) =>
        if c.containerId in pids && c.imageId in programs
        then Attach(s, NewInstance(pod, c, pids[c.containerId]), programs)
        else s
  }

  /** The effect of a delete event. */
  function Delete(s: Stores, pod: Pod, programs: Programs): Stores {
    match FirstRegistered(pod.containers, programs, s.instances)
    case None => s
    case Some(c) => Detach(s, ContainerKey(c))
  }

  // The lookup of the pid fails, or the map is full.
  predicate UpdateTroubles(s: Stores, pod: Pod, programs: Programs, pids: map<string, int>) {
    && pod.running && pod.managed
    && FirstUnregistered(pod.containers, programs, s.instances).Some?
    && var c := FirstUnregistered(pod.containers, programs, s.instances).value;
       c.containerId !in pids || !RoomFor(s, NewInstance(pod, c, pids[c.containerId]))
  }

  // The map has no cluster for the instance.
  predicate DeleteTroubles(s: Stores, pod: Pod, programs: Programs) {
    && FirstRegistered(pod.containers, programs, s.instances).Some?
    && !DeleteWorks(s, ContainerKey(FirstRegistered(pod.containers, programs, s.instances).value))
  }

  class BpfRunner {
    var instances: map<Id, Instance>
    var bpfPrograms: Programs
    var clusters: map<nat, Cluster>
    var attached: set<string>                // the versions whose program is marked attached
    var attaching: seq<(int, string)>        // the attach goroutines started, by pid and version
    var errors: nat                          // errors handed to internalErrChan

    ghost function View(): Stores
      reads this
    {
      Stores(instances, clusters)
    }

    method AttachInstance(t: Instance) returns (ok: bool)
      requires t.version in bpfPrograms
      modifies this`instances, this`clusters, this`attaching, this`errors
      ensures View() == Attach(old(View()), t, bpfPrograms) && ok == UpdateWorks(old(View()), t)
      ensures attaching == old(attaching) + if ok && t.version !in attached then [(t.pid, t.version)] else []
      ensures errors == old(errors) + if ok then 0 else 1
      ensures instances == old(instances)[t.version + "|" + t.containerId := t]
      ensures ok ==>
        t.pid % 0x1_0000_0000 in clusters && Describes(clusters[t.pid % 0x1_0000_0000], t, bpfPrograms)
    {
      ValueDescribes(t, bpfPrograms);
      var cluster := Cluster(NameCodec.Encode(t.clusterName), bpfPrograms[t.version]);
      instances := instances[IdOf(t) := t];
      if !(Key(t.pid) in clusters || |clusters| < CLUSTERS) {
        errors := errors + 1;
        return false;
      }
      clusters := clusters[Key(t.pid) := cluster];
      if t.version !in attached {
        attaching := attaching + [(t.pid, t.version)];
      }
      return true;
    }

    method DetachInstance(id: Id)
      modifies this`instances, this`clusters, this`errors
      ensures View() == Detach(old(View()), id)
      ensures errors == old(errors) + if DeleteWorks(old(View()), id) then 0 else 1
    {
      if id in instances {
        var t := instances[id];
        if Key(t.pid) !in clusters {
          errors := errors + 1;
          return;
        }
        clusters := clusters - {Key(t.pid)};
        instances := instances - {id};
      }
    }

    /** pids is what the container runtime and /proc answer, by container. */
    method OnPodUpdate(pod: Pod, pids: map<string, int>)
      modifies this`instances, this`clusters, this`attaching, this`errors
      ensures View() == Update(old(View()), pod, bpfPrograms, pids)
      ensures errors == old(errors) + if UpdateTroubles(old(View()), pod, bpfPrograms, pids) then 1 else 0
      ensures var t := Attached(old(View()), Updated(pod, pids), bpfPrograms);
        attaching == old(attaching)
          + if t.Some? && RoomFor(old(View()), t.value) && t.value.version !in attached
            then [(t.value.pid, t.value.version)] else []
    {
      if !pod.running {
        return;
      }
      if !pod.managed {
        return;
      }
      var cs := pod.containers;
      assert cs[0..] == cs;
      for i := 0 to |cs|
        invariant View() == old(View()) && errors == old(errors) && attaching == old(attaching)
        invariant FirstUnregistered(cs, bpfPrograms, instances) == FirstUnregistered(cs[i..], bpfPrograms, instances)
      {
        var c := cs[i];
        if !c.ready {
          continue;
        }
        if !c.database {
          continue;
        }
        if c.imageId !in bpfPrograms {
          continue;
        }
        if MakeId(c.imageId, c.containerId) in instances {
          continue;
        }
        if c.containerId !in pids {
          errors := errors + 1;
          break;
        }
        var ok := AttachInstance(NewInstance(pod, c, pids[c.containerId]));
        break;
      }
    }

    method OnPodDelete(pod: Pod)
      modifies this`instances, this`clusters, this`errors
      ensures View() == Delete(old(View()), pod, bpfPrograms)
      ensures errors == old(errors) + if DeleteTroubles(old(View()), pod, bpfPrograms) then 1 else 0
    {
      var cs := pod.containers;
      assert cs[0..] == cs;
      for i := 0 to |cs|
        invariant View() == old(View()) && errors == old(errors)
        invariant FirstRegistered(cs, bpfPrograms, instances) == FirstRegistered(cs[i..], bpfPrograms, instances)
      {
        var c := cs[i];
        if !c.database {
          continue;
        }
        if c.imageId !in bpfPrograms {
          continue;
        }
        if MakeId(c.imageId, c.containerId) !in instances {
          continue;
        }
        DetachInstance(MakeId(c.imageId, c.containerId));
        break;
      }
    }
  }

  // ----- repeated events for one pod -----

  /** The ids that the pod still has to register. */
  ghost function Missing(pod: Pod, programs: Programs, instances: map<Id, Instance>): set<Id> {
    set c | c in pod.containers && Eligible(c, programs, instances) :: c.imageId + "|" + c.containerId
  }

  // Ready, of a supported database, and not registered.
  predicate Eligible(c: Container, programs: Programs, instances: map<Id, Instance>) {
    c.ready && c.database && c.imageId in programs && c.imageId + "|" + c.containerId !in instances
  }

  // Of a supported database, and registered.
  predicate Known(c: Container, programs: Programs, instances: map<Id, Instance>) {
    c.database && c.imageId in programs && c.imageId + "|" + c.containerId in instances
  }

  /** The ids of the pod that are registered, whether or not their containers are ready. */
  ghost function Present(pod: Pod, programs: Programs, instances: map<Id, Instance>): set<Id> {
    set c | c in pod.containers && Known(c, programs, instances) :: c.imageId + "|" + c.containerId
  }

  lemma {:induction false} FirstUnregisteredIs(cs: seq<Container>, programs: Programs, instances: map<Id, Instance>)
    ensures FirstUnregistered(cs, programs, instances).None? <==>
      forall c :: c in cs ==> !Unregistered(c, programs, instances)
    ensures FirstUnregistered(cs, programs, instances).Some? ==>
      var c := FirstUnregistered(cs, programs, instances).value; c in cs && Unregistered(c, programs, instances)
  {
    if cs != [] {
      FirstUnregisteredIs(cs[1..], programs, instances);
    }
  }

  lemma {:induction false} FirstRegisteredIs(cs: seq<Container>, programs: Programs, instances: map<Id, Instance>)
    ensures FirstRegistered(cs, programs, instances).None? <==>
      forall c :: c in cs ==> !Registered(c, programs, instances)
    ensures FirstRegistered(cs, programs, instances).Some? ==>
      var c := FirstRegistered(cs, programs, instances).value; c in cs && Registered(c, programs, instances)
  {
    if cs != [] {
      FirstRegisteredIs(cs[1..], programs, instances);
    }
  }

  // The pod is watched, and the container runtime and /proc answer for each container that is looked up.
  ghost predicate Answered(pod: Pod, programs: Programs, pids: map<string, int>) {
    && pod.running && pod.managed
    && forall c :: c in pod.containers && c.ready && c.database && c.imageId in programs ==> c.containerId in pids
  }

  lemma {:induction false} FirstUnregisteredAt(cs: seq<Container>, programs: Programs, instances: map<Id, Instance>)
      returns (i: nat)
    requires FirstUnregistered(cs, programs, instances).Some?
    ensures i < |cs| && FirstUnregistered(cs, programs, instances) == Some(cs[i])
    ensures Eligible(cs[i], programs, instances)
    ensures forall k :: 0 <= k < i ==> !Eligible(cs[k], programs, instances)
  {
    if Unregistered(cs[0], programs, instances) {
      i := 0;
    } else {
      i := FirstUnregisteredAt(cs[1..], programs, instances);
      i := i + 1;
      assert forall k :: 0 < k < i ==> cs[k] == cs[1..][k - 1];
    }
  }

  ghost predicate NoneEligible(pod: Pod, programs: Programs, instances: map<Id, Instance>) {
    forall c :: c in pod.containers ==> !Eligible(c, programs, instances)
  }

  /** An update of a running managed pod registers exactly one container, the first that is eligible, with the
      label and the name of its pod; it changes nothing for another pod, when no container is eligible, or
      when the pid of that one is not found. */
  lemma UpdateRegistersOne(s: Stores, pod: Pod, programs: Programs, pids: map<string, int>) returns (i: nat)
    ensures !pod.running || !pod.managed || NoneEligible(pod, programs, s.instances) ==>
      Update(s, pod, programs, pids) == s
    ensures pod.running && pod.managed && !NoneEligible(pod, programs, s.instances) ==>
      && i < |pod.containers| && Eligible(pod.containers[i], programs, s.instances)
      && (forall k :: 0 <= k < i ==> !Eligible(pod.containers[k], programs, s.instances))
      && var c := pod.containers[i];
         if c.containerId !in pids then Update(s, pod, programs, pids) == s
         else
           var t := Instance(pod.instance, pod.name, c.containerId, c.imageId, pids[c.containerId]);
           && Update(s, pod, programs, pids) == Attach(s, t, programs)
           && Update(s, pod, programs, pids).instances == s.instances[c.imageId + "|" + c.containerId := t]
  {
    FirstUnregisteredIs(pod.containers, programs, s.instances);
    i := 0;
    if FirstUnregistered(pod.containers, programs, s.instances).Some? {
      i := FirstUnregisteredAt(pod.containers, programs, s.instances);
    }
  }

  lemma MissingIff(pod: Pod, programs: Programs, instances: map<Id, Instance>)
    ensures Missing(pod, programs, instances) == {} <==> NoneEligible(pod, programs, instances)
  {
    forall c | c in pod.containers && Eligible(c, programs, instances)
      ensures Missing(pod, programs, instances) != {}
    {
      assert c.imageId + "|" + c.containerId in Missing(pod, programs, instances);
    }
  }

  lemma UpdateShrinks(s: Stores, pod: Pod, programs: Programs, pids: map<string, int>)
    requires Answered(pod, programs, pids)
    ensures var m := |Missing(pod, programs, s.instances)|;
      && |Missing(pod, programs, Update(s, pod, programs, pids).instances)| == (if m > 0 then m - 1 else 0)
      && (m == 0 ==> Update(s, pod, programs, pids) == s)
  {
    var i := UpdateRegistersOne(s, pod, programs, pids);
    MissingIff(pod, programs, s.instances);
    var u := Update(s, pod, programs, pids);
    if Missing(pod, programs, s.instances) != {} {
      var id := pod.containers[i].imageId + "|" + pod.containers[i].containerId;
      assert id in Missing(pod, programs, s.instances);
      assert Missing(pod, programs, u.instances) == Missing(pod, programs, s.instances) - {id};
    }
  }

  function Updates(s: Stores, pod: Pod, programs: Programs, pids: map<string, int>, n: nat): Stores
    decreases n
  {
    if n == 0 then s else Updates(Update(s, pod, programs, pids), pod, programs, pids, n - 1)
  }

  /** Repeated updates converge: n of them bring the number of missing ids down by n, to zero at the latest
      after as many updates as there were missing ids, and from there on nothing changes. */
  lemma {:induction false} UpdatesConverge(s: Stores, pod: Pod, programs: Programs, pids: map<string, int>, n: nat)
    requires Answered(pod, programs, pids)
    ensures var m := |Missing(pod, programs, s.instances)|; var u := Updates(s, pod, programs, pids, n);
      && |Missing(pod, programs, u.instances)| == (if n < m then m - n else 0)
      && (n >= m ==> Update(u, pod, programs, pids) == u)
    decreases n
  {
    UpdateShrinks(s, pod, programs, pids);
    if n > 0 {
      UpdatesConverge(Update(s, pod, programs, pids), pod, programs, pids, n - 1);
    }
  }

  lemma DeleteTakesOne(s: Stores, pod: Pod, programs: Programs)
    requires Agree(s, programs)
    ensures Present(pod, programs, s.instances) == {} ==> Delete(s, pod, programs) == s
    ensures Present(pod, programs, s.instances) != {} ==>
      var c := FirstRegistered(pod.containers, programs, s.instances);
      && c.Some? && ContainerKey(c.value) in Present(pod, programs, s.instances)
      && Delete(s, pod, programs).instances == s.instances - {ContainerKey(c.value)}
  {
    FirstRegisteredIs(pod.containers, programs, s.instances);
    match FirstRegistered(pod.containers, programs, s.instances)
    case None =>
    case Some(c) =>
      assert Mirrored(s, ContainerKey(c), programs);
      assert ContainerKey(c) in Present(pod, programs, s.instances);
  }

  lemma {:induction false} FirstRegisteredAt(cs: seq<Container>, programs: Programs, instances: map<Id, Instance>)
      returns (i: nat)
    requires FirstRegistered(cs, programs, instances).Some?
    ensures i < |cs| && FirstRegistered(cs, programs, instances) == Some(cs[i]) && Known(cs[i], programs, instances)
    ensures forall k :: 0 <= k < i ==> !Known(cs[k], programs, instances)
  {
    if Registered(cs[0], programs, instances) {
      i := 0;
    } else {
      i := FirstRegisteredAt(cs[1..], programs, instances);
      i := i + 1;
      assert forall k :: 0 < k < i ==> cs[k] == cs[1..][k - 1];
    }
  }

  /** A delete event detaches exactly the first registered container of the pod, whether or not it is ready,
      and changes nothing when there is none. */
  lemma DeleteDetachesFirst(s: Stores, pod: Pod, programs: Programs) returns (i: nat)
    ensures (forall c :: c in pod.containers ==> !Known(c, programs, s.instances)) ==> Delete(s, pod, programs) == s
    ensures (exists c :: c in pod.containers && Known(c, programs, s.instances)) ==>
      && i < |pod.containers| && Known(pod.containers[i], programs, s.instances)
      && (forall k :: 0 <= k < i ==> !Known(pod.containers[k], programs, s.instances))
      && Delete(s, pod, programs) == Detach(s, pod.containers[i].imageId + "|" + pod.containers[i].containerId)
  {
    FirstRegisteredIs(pod.containers, programs, s.instances);
    i := 0;
    if FirstRegistered(pod.containers, programs, s.instances).Some? {
      i := FirstRegisteredAt(pod.containers, programs, s.instances);
    }
  }

  /** A delete event takes away exactly one id of the pod, so it unregisters the whole pod exactly when at
      most one of its ids was registered. */
  lemma DeleteUnregistersPodIff(s: Stores, pod: Pod, programs: Programs)
    requires Agree(s, programs)
    ensures Present(pod, programs, Delete(s, pod, programs).instances) == {} <==>
      |Present(pod, programs, s.instances)| <= 1
  {
    DeleteTakesOne(s, pod, programs);
    var before := Present(pod, programs, s.instances);
    if before != {} {
      var id := ContainerKey(FirstRegistered(pod.containers, programs, s.instances).value);
      assert Present(pod, programs, s.instances - {id}) == before - {id};
      assert |before - {id}| == |before| - 1;
    }
  }

  /** For a pod with one supported container, registered by an update under a pid of its own, a delete
      restores both stores. */
  lemma DeleteUndoesUpdate(s: Stores, pod: Pod, programs: Programs, pids: map<string, int>, c: Container)
    requires Answered(pod, programs, pids) && c in pod.containers && Eligible(c, programs, s.instances)
    requires forall d :: d in pod.containers && d.database && d.imageId in programs ==>
      d.imageId + "|" + d.containerId == c.imageId + "|" + c.containerId
    requires forall d :: d in pod.containers && d.ready && d.database && d.imageId in programs ==>
      pids[d.containerId] % 0x1_0000_0000 !in s.clusters
    requires |s.clusters| < 1024
    ensures Update(s, pod, programs, pids) != s
    ensures Delete(Update(s, pod, programs, pids), pod, programs) == s
  {
    FirstUnregisteredIs(pod.containers, programs, s.instances);
    var d := FirstUnregistered(pod.containers, programs, s.instances).value;
    var u := Update(s, pod, programs, pids);
    var id := ContainerKey(c);
    assert u == Attach(s, NewInstance(pod, d, pids[d.containerId]), programs);
    assert id in u.instances && id !in s.instances;
    FirstRegisteredIs(pod.containers, programs, u.instances);
    assert Registered(c, programs, u.instances);
    assert Delete(u, pod, programs) == Detach(u, id);
    assert Detach(u, id).instances == s.instances;
    assert Detach(u, id).clusters == s.clusters;
  }

  // ----- any events of any pods -----

  datatype PodEvent = Updated(pod: Pod, pids: map<string, int>) | Deleted(pod: Pod)

  function After(s: Stores, e: PodEvent, programs: Programs): Stores {
    match e
    case Updated(pod, pids) => Update(s, pod, programs, pids)
    case Deleted(pod) => Delete(s, pod, programs)
  }

  /** The stores after some events, each processed before the next. */
  function AfterEvents(events: seq<PodEvent>, programs: Programs): Stores
    decreases |events|
  {
    if events == [] then NOTHING
    else After(AfterEvents(events[..|events| - 1], programs), events[|events| - 1], programs)
  }

  // The instance that an event attaches, if any.
  function Attached(s: Stores, e: PodEvent, programs: Programs): Option<Instance> {
    if e.Deleted? || !e.pod.running || !e.pod.managed then None
    else match FirstUnregistered(e.pod.containers, programs, s.instances)
      case None => None
      case Some(c) =>
        if c.containerId in e.pids && c.imageId in programs then Some(NewInstance(e.pod, c, e.pids[c.containerId]))
        else None
  }

  // The operation that an event comes to, if any.
  function OpsOf(s: Stores, e: PodEvent, programs: Programs): seq<Op> {
    if Attached(s, e, programs).Some? then [AttachOp(Attached(s, e, programs).value)]
    else if e.Deleted? && FirstRegistered(e.pod.containers, programs, s.instances).Some?
    then [DetachOp(ContainerKey(FirstRegistered(e.pod.containers, programs, s.instances).value))]
    else []
  }

  function AllOps(events: seq<PodEvent>, programs: Programs): seq<Op>
    decreases |events|
  {
    if events == [] then []
    else
      var most := events[..|events| - 1];
      AllOps(most, programs) + OpsOf(AfterEvents(most, programs), events[|events| - 1], programs)
  }

  // An event may look up the pid of a container, and gets one.
  predicate LooksUp(e: PodEvent, c: Container, programs: Programs) {
    && e.Updated? && c in e.pod.containers
    && c.ready && c.database && c.imageId in programs && c.containerId in e.pids
  }

  // The lookups give each supported container one pid of its own, whichever pod it is reported in.
  ghost predicate FixedLookups(events: seq<PodEvent>, pidOf: map<Id, int>, programs: Programs) {
    && (forall i, c :: 0 <= i < |events| && LooksUp(events[i], c, programs) ==>
          var id := c.imageId + "|" + c.containerId;
          id in pidOf && pidOf[id] == events[i].pids[c.containerId])
    && DistinctPids(pidOf)
  }

  lemma AttachedIs(s: Stores, e: PodEvent, programs: Programs)
    requires Attached(s, e, programs).Some?
    ensures var t := Attached(s, e, programs).value;
      && t.version in programs && After(s, e, programs) == Attach(s, t, programs)
      && exists c :: LooksUp(e, c, programs) && ContainerKey(c) == IdOf(t) && e.pids[c.containerId] == t.pid
  {
    FirstUnregisteredIs(e.pod.containers, programs, s.instances);
    var c := FirstUnregistered(e.pod.containers, programs, s.instances).value;
    assert ContainerKey(c) == IdOf(Attached(s, e, programs).value);
  }

  /** An event comes to at most one operation, and has its effect. */
  lemma OneOp(s: Stores, e: PodEvent, programs: Programs)
    ensures var ops := OpsOf(s, e, programs);
      if ops == [] then After(s, e, programs) == s
      else |ops| == 1 && match ops[0]
        case AttachOp(t) => t.version in programs && After(s, e, programs) == Attach(s, t, programs)
        case DetachOp(id) => After(s, e, programs) == Detach(s, id)
  {
    if Attached(s, e, programs).Some? {
      AttachedIs(s, e, programs);
    }
  }

  lemma {:induction false} EventsAreOps(events: seq<PodEvent>, programs: Programs)
    ensures KnownOps(AllOps(events, programs), programs)
    ensures Run(NOTHING, AllOps(events, programs), programs) == AfterEvents(events, programs)
    decreases |events|
  {
    if events != [] {
      var most, last := events[..|events| - 1], events[|events| - 1];
      var s, before := AfterEvents(most, programs), AllOps(most, programs);
      var ops := OpsOf(s, last, programs);
      EventsAreOps(most, programs);
      OneOp(s, last, programs);
      if ops == [] {
        assert before + ops == before;
      } else {
        assert ops == [ops[0]] && (before + ops)[..|before|] == before;
      }
    }
  }

  lemma {:induction false} OpsHaveFixedPids(events: seq<PodEvent>, pidOf: map<Id, int>, programs: Programs)
    requires FixedLookups(events, pidOf, programs)
    ensures FixedPids(AllOps(events, programs), pidOf)
    decreases |events|
  {
    if events != [] {
      var most, last := events[..|events| - 1], events[|events| - 1];
      var s := AfterEvents(most, programs);
      OpsHaveFixedPids(most, pidOf, programs);
      if Attached(s, last, programs).Some? {
        AttachedIs(s, last, programs);
        assert last == events[|events| - 1];
      }
    }
  }

  /** Every instance registered after some events was attached for a container of one of their pods: it has
      the label and the name of that pod, the ids of the container and the pid looked up for it. */
  lemma {:induction false} EventsCarry(events: seq<PodEvent>, programs: Programs, id: Id) returns (i: nat, c: Container)
    requires id in AfterEvents(events, programs).instances
    ensures i < |events| && LooksUp(events[i], c, programs) && id == c.imageId + "|" + c.containerId
    ensures AfterEvents(events, programs).instances[id] ==
      Instance(events[i].pod.instance, events[i].pod.name, c.containerId, c.imageId, events[i].pids[c.containerId])
    decreases |events|
  {
    var most, last := events[..|events| - 1], events[|events| - 1];
    var s := AfterEvents(most, programs);
    OneOp(s, last, programs);
    if Attached(s, last, programs).Some? && IdOf(Attached(s, last, programs).value) == id {
      FirstUnregisteredIs(last.pod.containers, programs, s.instances);
      i, c := |events| - 1, FirstUnregistered(last.pod.containers, programs, s.instances).value;
    } else {
      i, c := EventsCarry(most, programs, id);
    }
  }

  /** Every attach that an event leads to finds room in the map. */
  predicate RoomForEvents(events: seq<PodEvent>, programs: Programs) {
    forall i :: 0 <= i < |events| ==> RoomForEvent(AfterEvents(events[..i], programs), events[i], programs)
  }

  predicate RoomForEvent(s: Stores, e: PodEvent, programs: Programs) {
    Attached(s, e, programs).Some? ==> RoomFor(s, Attached(s, e, programs).value)
  }

  lemma {:induction false} RoomIsForOps(events: seq<PodEvent>, programs: Programs)
    requires RoomForEvents(events, programs)
    ensures KnownOps(AllOps(events, programs), programs) && UpdatesWork(AllOps(events, programs), programs)
    decreases |events|
  {
    EventsAreOps(events, programs);
    if events != [] {
      var most, last := events[..|events| - 1], events[|events| - 1];
      assert forall i :: 0 <= i < |most| ==> most[..i] == events[..i] && most[i] == events[i];
      EventsAreOps(most, programs);
      RoomIsForOps(most, programs);
      var before, ops := AllOps(most, programs), OpsOf(AfterEvents(most, programs), last, programs);
      assert RoomForEvent(AfterEvents(most, programs), last, programs);
      if ops == [] {
        assert before + ops == before;
      } else {
        assert ops == [ops[0]] && (before + ops)[..|before|] == before;
        OneMoreWorks(before + ops, programs);
      }
    }
  }

  /** Over any sequence of update and delete events of any pods, with one pid of its own for each container and
      room in the map whenever an event attaches, the two stores agree. */
  lemma EventsAgree(events: seq<PodEvent>, pidOf: map<Id, int>, programs: Programs)
    requires FixedLookups(events, pidOf, programs) && RoomForEvents(events, programs)
    ensures Agree(AfterEvents(events, programs), programs)
  {
    EventsAreOps(events, programs);
    OpsHaveFixedPids(events, pidOf, programs);
    RoomIsForOps(events, programs);
    RunsAgree(AllOps(events, programs), pidOf, programs);
  }

  lemma RoomForPrefix(events: seq<PodEvent>, n: nat, programs: Programs)
    requires RoomForEvents(events, programs) && n <= |events|
    ensures RoomForEvents(events[..n], programs)
  {
    assert forall i :: 0 <= i < n ==> events[..n][..i] == events[..i] && events[..n][i] == events[i];
  }

  lemma FixedForPrefix(events: seq<PodEvent>, n: nat, pidOf: map<Id, int>, programs: Programs)
    requires FixedLookups(events, pidOf, programs) && n <= |events|
    ensures FixedLookups(events[..n], pidOf, programs)
  {
    assert forall i :: 0 <= i < n ==> events[..n][i] == events[i];
  }

  /** With such pids they agree after every event if and only if each attach found room. */
  lemma EventsAgreeIff(events: seq<PodEvent>, pidOf: map<Id, int>, programs: Programs)
    requires FixedLookups(events, pidOf, programs)
    ensures (forall n :: 0 <= n <= |events| ==> Agree(AfterEvents(events[..n], programs), programs)) <==>
      RoomForEvents(events, programs)
  {
    if RoomForEvents(events, programs) {
      forall n | 0 <= n <= |events|
        ensures Agree(AfterEvents(events[..n], programs), programs)
      {
        RoomForPrefix(events, n, programs);
        FixedForPrefix(events, n, pidOf, programs);
        EventsAgree(events[..n], pidOf, programs);
      }
    } else {
      var i :| 0 <= i < |events| && !RoomForEvent(AfterEvents(events[..i], programs), events[i], programs);
      NoRoomDisagrees(events, i, programs);
    }
  }

  lemma NoRoomDisagrees(events: seq<PodEvent>, i: nat, programs: Programs)
    requires i < |events| && !RoomForEvent(AfterEvents(events[..i], programs), events[i], programs)
    ensures !Agree(AfterEvents(events[..i], programs), programs)
      || !Agree(AfterEvents(events[..i + 1], programs), programs)
  {
    var s := AfterEvents(events[..i], programs);
    assert events[..i + 1][..i] == events[..i];
    AttachedIs(s, events[i], programs);
    if Agree(s, programs) {
      AttachAgreesIff(s, Attached(s, events[i], programs).value, programs);
    }
  }
}
