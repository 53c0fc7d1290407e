/** The two lossy channels between the probe and the pump: a bounded BPF queue of records, which evicts its
    oldest element when full, and a perf ring of events, which drops events when full. The pump pops one
    record for each event it reads, whichever push that event was output for. */
module EventQueue {
  import opened Wrappers

  // max_entries of db_ctx_queue.
  const CAPACITY: nat := 5120

  // Where the event of a push is: not output yet, in the ring, read and not popped for, dropped by the
  // ring, or popped for.
  datatype Fate = Unsignalled | InRing | Held | Lost | Spent

  // What the pump prints for an event, which is named by its push: the record just popped, with its place
  // among the pushes, or the old value of its variable.
  datatype Print<T> = Fresh(event: nat, index: nat, rec: T) | Stale(event: nat, rec: T)

  datatype Channel<T> = Channel(
    queue: seq<T>,
    fate: seq<Fate>,        // of the event of each push
    unreported: nat,        // lost events that the reader has not been told of
    holding: Option<nat>,   // the event that the pump has read and not popped for
    exited: bool,
    current: T,             // the variable dbCtx of the pump
    // history
    pushes: seq<T>,
    evicted: nat,
    popped: nat,
    emptyReads: nat,
    prints: seq<Print<T>>)

  function Empty<T>(zero: T): Channel<T> {
    Channel([], [], 0, None, false, zero, [], 0, 0, 0, [])
  }

  function Count(fate: seq<Fate>, f: Fate): nat { multiset(fate)[f] }

  datatype Event<T> =
    | Push(rec: T)
    | Signal(push: nat, accepted: bool)
    | ReadSample(push: nat)   // each CPU has its own ring, so the oldest event need not be read first
    | ReadLost(count: nat)
    | ReadFails
    | ReadClosed
    | ContextDone
    | Pop(fault: bool)        // fault: an error other than the missing key

  /** bpf_map_push_elem with BPF_EXIST. */
  function Pushed<T>(queue: seq<T>, rec: T): seq<T> {
    if |queue| >= CAPACITY then queue[1..] + [rec] else queue + [rec]
  }

  predicate Is(fate: seq<Fate>, push: nat, f: Fate) { push < |fate| && fate[push] == f }

  function PopOf<T>(c: Channel<T>, event: nat): Channel<T>
    requires event < |c.fate|
  {
    var d := c.(fate := c.fate[event := Spent], holding := None);
    if c.queue == [] then
      d.(emptyReads := c.emptyReads + 1, prints := c.prints + [Stale(event, c.current)])
    else
      d.(queue := c.queue[1..], current := c.queue[0], popped := c.popped + 1,
         prints := c.prints + [Fresh(event, c.popped + c.evicted, c.queue[0])])
  }

  function Step<T>(c: Channel<T>, e: Event<T>): Option<Channel<T>> {
    match e
    case Push(rec) =>
      Some(c.(queue := Pushed(c.queue, rec), pushes := c.pushes + [rec], fate := c.fate + [Unsignalled],
              evicted := c.evicted + if |c.queue| >= CAPACITY then 1 else 0))
    case Signal(push, accepted) =>
      if !Is(c.fate, push, Unsignalled) then None
      else if accepted then Some(c.(fate := c.fate[push := InRing]))
      else Some(c.(fate := c.fate[push := Lost], unreported := c.unreported + 1))
    case ReadSample(push) =>
      if c.exited || c.holding.Some? || !Is(c.fate, push, InRing) then None
      else Some(c.(fate := c.fate[push := Held], holding := Some(push)))
    case ReadLost(count) =>
      if c.exited || c.holding.Some? || count == 0 || count > c.unreported then None
      else Some(c.(unreported := c.unreported - count))
    case ReadFails => if c.exited || c.holding.Some? then None else Some(c)
    case ReadClosed => if c.exited || c.holding.Some? then None else Some(c.(exited := true))
    case ContextDone => if c.exited || c.holding.Some? then None else Some(c.(exited := true))
    case Pop(fault) =>
      if c.exited || c.holding.None? || !Is(c.fate, c.holding.value, Held) then None
      else if fault then Some(c.(exited := true))
      else Some(PopOf(c, c.holding.value))
  }

  function Exec<T>(c: Channel<T>, run: seq<Event<T>>): Option<Channel<T>>
    decreases |run|
  {
    if run == [] then Some(c)
    else match Step(c, run[0])
      case Some(d) => Exec(d, run[1..])
      case None => None
  }

  function StaleCount<T>(prints: seq<Print<T>>): nat {
    if prints == [] then 0
    else StaleCount(prints[..|prints| - 1]) + if prints[|prints| - 1].Stale? then 1 else 0
  }

  // ----- counting -----

  lemma {:induction false} CountsSum(fate: seq<Fate>)
    ensures Count(fate, Unsignalled) + Count(fate, InRing) + Count(fate, Held) + Count(fate, Lost)
      + Count(fate, Spent) == |fate|
  {
    if fate == [] {
      assert multiset(fate) == multiset{};
    } else {
      var most, last := fate[..|fate| - 1], fate[|fate| - 1];
      CountsSum(most);
      assert fate == most + [last];
      assert forall f :: Count(fate, f) == Count(most, f) + if f == last then 1 else 0;
      assert last.Unsignalled? || last.InRing? || last.Held? || last.Lost? || last.Spent?;
    }
  }

  lemma CountUpdate(fate: seq<Fate>, i: nat, f: Fate)
    requires i < |fate|
    ensures forall g ::
      Count(fate[i := f], g) == Count(fate, g) - (if fate[i] == g then 1 else 0) + (if f == g then 1 else 0)
  {
  }

  // ----- invariants -----

  /** Every push has an event, and every event that has been popped for has been printed for. */
  ghost predicate Accounted<T>(c: Channel<T>) {
    && |c.fate| == |c.pushes|
    && Count(c.fate, Held) == (if c.holding.Some? then 1 else 0)
    && (c.holding.Some? ==> Is(c.fate, c.holding.value, Held))
    && Count(c.fate, Spent) == |c.prints| == c.popped + c.emptyReads
    && StaleCount(c.prints) == c.emptyReads <= c.evicted
    && c.unreported <= Count(c.fate, Lost)
  }

  /** The queue is what is left of the history of pushes, in order. Once it has overflowed, the records popped
      and those still in it are at least as many as it holds. */
  ghost predicate Ordered<T>(queue: seq<T>, pushes: seq<T>, popped: nat, evicted: nat) {
    && |queue| <= CAPACITY
    && popped + evicted <= |pushes|
    && queue == pushes[popped + evicted..]
    && (evicted > 0 ==> popped + |queue| >= CAPACITY)
  }

  ghost predicate FreshInOrder<T>(prints: seq<Print<T>>, pushes: seq<T>, gone: nat) {
    && gone <= |pushes|
    && (forall i :: 0 <= i < |prints| && prints[i].Fresh? ==>
          prints[i].index < gone && prints[i].rec == pushes[prints[i].index])
    && (forall i, j :: 0 <= i < j < |prints| && prints[i].Fresh? && prints[j].Fresh? ==>
          prints[i].index < prints[j].index)
  }

  /** A stale print repeats the one before it, and there is none before as many prints as the queue holds. */
  ghost predicate StaleRepeats<T>(prints: seq<Print<T>>, current: T) {
    && (prints != [] ==> current == prints[|prints| - 1].rec)
    && (forall i :: 0 <= i < |prints| && prints[i].Stale? ==> i >= CAPACITY)
    && (forall i, j :: 0 <= i < |prints| - 1 && j == i + 1 && prints[j].Stale? ==> prints[j].rec == prints[i].rec)
  }

  /** No event is printed for twice. */
  ghost predicate EventsOnce<T>(prints: seq<Print<T>>, fate: seq<Fate>) {
    && (forall i :: 0 <= i < |prints| ==> Is(fate, prints[i].event, Spent))
    && (forall i, j :: 0 <= i < j < |prints| ==> prints[i].event != prints[j].event)
  }

  ghost predicate Paired<T>(prints: seq<Print<T>>, pushes: seq<T>) {
    |prints| <= |pushes| && forall j :: 0 <= j < |prints| ==>
      prints[j].Fresh? && prints[j].index == j && prints[j].rec == pushes[j]
  }

  ghost predicate PrintsInv<T>(c: Channel<T>) {
    && FreshInOrder(c.prints, c.pushes, c.popped + c.evicted)
    && StaleRepeats(c.prints, c.current)
    && EventsOnce(c.prints, c.fate)
    && (c.evicted == 0 ==> Paired(c.prints, c.pushes))
  }

  ghost predicate ChannelInv<T>(c: Channel<T>) {
    Accounted(c) && Ordered(c.queue, c.pushes, c.popped, c.evicted) && PrintsInv(c)
  }

  /** The equation that relates events to records. */
  lemma Balance<T>(c: Channel<T>)
    requires Accounted(c) && Ordered(c.queue, c.pushes, c.popped, c.evicted)
    ensures c.emptyReads + Count(c.fate, InRing) + Count(c.fate, Held) + Count(c.fate, Unsignalled)
      + Count(c.fate, Lost) == c.evicted + |c.queue|
    ensures c.holding.Some? ==> Count(c.fate, Held) == 1
  {
    CountsSum(c.fate);
  }

  lemma EmptyInv<T>(zero: T)
    ensures ChannelInv(Empty(zero))
  {
  }

  // ----- a push -----

  lemma PushKeepsOrder<T>(queue: seq<T>, pushes: seq<T>, popped: nat, evicted: nat, rec: T)
    requires Ordered(queue, pushes, popped, evicted)
    ensures Ordered(Pushed(queue, rec), pushes + [rec], popped, evicted + if |queue| >= CAPACITY then 1 else 0)
  {
    var start := popped + evicted;
    if |queue| >= CAPACITY {
      assert (pushes + [rec])[start + 1..] == pushes[start..][1..] + [rec];
    } else {
      assert (pushes + [rec])[start..] == pushes[start..] + [rec];
    }
  }

  lemma PushKeepsFresh<T>(prints: seq<Print<T>>, pushes: seq<T>, gone: nat, rec: T, gone': nat)
    requires FreshInOrder(prints, pushes, gone) && gone <= gone' <= |pushes| + 1
    ensures FreshInOrder(prints, pushes + [rec], gone')
  {
  }

  lemma PushKeepsPairing<T>(prints: seq<Print<T>>, pushes: seq<T>, rec: T)
    requires Paired(prints, pushes)
    ensures Paired(prints, pushes + [rec])
  {
  }

  lemma PushKeepsEvents<T>(prints: seq<Print<T>>, fate: seq<Fate>)
    requires EventsOnce(prints, fate)
    ensures EventsOnce(prints, fate + [Unsignalled])
  {
  }

  lemma PushKeepsInv<T>(c: Channel<T>, rec: T)
    requires ChannelInv(c)
    ensures ChannelInv(Step(c, Push(rec)).value)
  {
    PushKeepsOrder(c.queue, c.pushes, c.popped, c.evicted, rec);
    PushKeepsFresh(c.prints, c.pushes, c.popped + c.evicted, rec,
                   c.popped + c.evicted + if |c.queue| >= CAPACITY then 1 else 0);
    PushKeepsEvents(c.prints, c.fate);
    if c.evicted == 0 {
      PushKeepsPairing(c.prints, c.pushes, rec);
    }
  }

  // ----- outputting and reading an event -----

  // Outputting or reading an event touches neither the records nor what has been printed.
  lemma EventMoves<T>(c: Channel<T>, e: Event<T>, d: Channel<T>)
    requires (e.Signal? || e.ReadSample?) && Step(c, e) == Some(d)
    ensures c == d.(fate := c.fate, unreported := c.unreported, holding := c.holding)
    ensures e.push < |c.fate| && c.fate[e.push] != Spent && d.fate == c.fate[e.push := d.fate[e.push]]
  {
  }

  lemma UpdateKeepsEvents<T>(prints: seq<Print<T>>, fate: seq<Fate>, push: nat, f: Fate)
    requires EventsOnce(prints, fate) && push < |fate| && fate[push] != Spent
    ensures EventsOnce(prints, fate[push := f])
  {
  }

  lemma EventMovesKeepCounts<T>(c: Channel<T>, e: Event<T>, d: Channel<T>)
    requires Accounted(c) && (e.Signal? || e.ReadSample?) && Step(c, e) == Some(d)
    ensures Accounted(d)
  {
    CountUpdate(c.fate, e.push, d.fate[e.push]);
  }

  lemma EventMovesKeepInv<T>(c: Channel<T>, e: Event<T>, d: Channel<T>)
    requires ChannelInv(c) && (e.Signal? || e.ReadSample?) && Step(c, e) == Some(d)
    ensures ChannelInv(d)
  {
    EventMoves(c, e, d);
    EventMovesKeepCounts(c, e, d);
    UpdateKeepsEvents(c.prints, c.fate, e.push, d.fate[e.push]);
  }

  lemma ReadKeepsInv<T>(c: Channel<T>, e: Event<T>)
    requires ChannelInv(c) && (e.ReadLost? || e.ReadFails? || e.ReadClosed? || e.ContextDone?) && Step(c, e).Some?
    ensures ChannelInv(Step(c, e).value)
  {
  }

  // ----- a pop -----

  lemma PopKeepsOrder<T>(queue: seq<T>, pushes: seq<T>, popped: nat, evicted: nat)
    requires Ordered(queue, pushes, popped, evicted) && queue != []
    ensures Ordered(queue[1..], pushes, popped + 1, evicted) && queue[0] == pushes[popped + evicted]
  {
    assert pushes[popped + evicted..][1..] == pushes[popped + 1 + evicted..];
  }

  lemma StaleCountGrows<T>(prints: seq<Print<T>>, p: Print<T>)
    ensures StaleCount(prints + [p]) == StaleCount(prints) + if p.Stale? then 1 else 0
  {
    assert (prints + [p])[..|prints|] == prints;
  }

  /** What a pop does: it spends its event and prints for it, the head of the queue if there is one. */
  lemma PopPrints<T>(c: Channel<T>, d: Channel<T>) returns (p: Print<T>)
    requires Step(c, Pop(false)) == Some(d)
    ensures c.holding == Some(p.event) && Is(c.fate, p.event, Held)
    ensures d.fate == c.fate[p.event := Spent] && d.holding.None? && d.prints == c.prints + [p]
    ensures d.pushes == c.pushes && d.evicted == c.evicted && d.unreported == c.unreported
    ensures if c.queue == []
            then d.queue == [] && p == Stale(p.event, c.current) && d.current == c.current
                 && d.popped == c.popped && d.emptyReads == c.emptyReads + 1
            else d.queue == c.queue[1..] && p == Fresh(p.event, c.popped + c.evicted, c.queue[0])
                 && d.current == c.queue[0] && d.popped == c.popped + 1 && d.emptyReads == c.emptyReads
  {
    p := d.prints[|c.prints|];
  }

  lemma PopKeepsCounts<T>(c: Channel<T>, d: Channel<T>)
    requires Accounted(c) && Ordered(c.queue, c.pushes, c.popped, c.evicted) && Step(c, Pop(false)) == Some(d)
    ensures Accounted(d)
  {
    var p := PopPrints(c, d);
    Balance(c);
    CountUpdate(c.fate, p.event, Spent);
    StaleCountGrows(c.prints, p);
  }

  lemma PopKeepsEvents<T>(prints: seq<Print<T>>, fate: seq<Fate>, p: Print<T>)
    requires EventsOnce(prints, fate) && Is(fate, p.event, Held)
    ensures EventsOnce(prints + [p], fate[p.event := Spent])
  {
  }

  // The queue overflows before a pop can find it empty.
  lemma EmptyPopIsLate<T>(c: Channel<T>)
    requires Accounted(c) && Ordered(c.queue, c.pushes, c.popped, c.evicted) && c.holding.Some? && c.queue == []
    ensures |c.prints| >= CAPACITY && c.evicted > 0
  {
    Balance(c);
  }

  lemma StaleKeepsPrints<T>(prints: seq<Print<T>>, pushes: seq<T>, gone: nat, current: T, event: nat)
    requires FreshInOrder(prints, pushes, gone) && StaleRepeats(prints, current) && |prints| >= CAPACITY
    ensures FreshInOrder(prints + [Stale(event, current)], pushes, gone)
    ensures StaleRepeats(prints + [Stale(event, current)], current)
  {
  }

  lemma FreshKeepsOrder<T>(prints: seq<Print<T>>, pushes: seq<T>, gone: nat, event: nat)
    requires FreshInOrder(prints, pushes, gone) && gone < |pushes|
    ensures FreshInOrder(prints + [Fresh(event, gone, pushes[gone])], pushes, gone + 1)
  {
  }

  lemma FreshKeepsStale<T>(prints: seq<Print<T>>, current: T, p: Print<T>)
    requires StaleRepeats(prints, current) && p.Fresh?
    ensures StaleRepeats(prints + [p], p.rec)
  {
  }

  lemma FreshKeepsPairing<T>(prints: seq<Print<T>>, pushes: seq<T>, event: nat)
    requires Paired(prints, pushes) && |prints| < |pushes|
    ensures Paired(prints + [Fresh(event, |prints|, pushes[|prints|])], pushes)
  {
  }

  lemma EmptyPopKeepsInv<T>(c: Channel<T>, d: Channel<T>)
    requires ChannelInv(c) && Step(c, Pop(false)) == Some(d) && c.queue == []
    ensures ChannelInv(d)
  {
    var p := PopPrints(c, d);
    PopKeepsCounts(c, d);
    EmptyPopIsLate(c);
    StaleKeepsPrints(c.prints, c.pushes, c.popped + c.evicted, c.current, p.event);
    PopKeepsEvents(c.prints, c.fate, p);
  }

  lemma FreshPopKeepsRecords<T>(c: Channel<T>, d: Channel<T>)
    requires ChannelInv(c) && Step(c, Pop(false)) == Some(d) && c.queue != []
    ensures Ordered(d.queue, d.pushes, d.popped, d.evicted)
    ensures FreshInOrder(d.prints, d.pushes, d.popped + d.evicted)
  {
    var p := PopPrints(c, d);
    var gone := c.popped + c.evicted;
    PopKeepsOrder(c.queue, c.pushes, c.popped, c.evicted);
    FreshKeepsOrder(c.prints, c.pushes, gone, p.event);
    assert d.popped + d.evicted == gone + 1;
  }

  lemma FreshPopKeepsPairing<T>(c: Channel<T>, d: Channel<T>)
    requires ChannelInv(c) && Step(c, Pop(false)) == Some(d) && c.queue != [] && c.evicted == 0
    ensures Paired(d.prints, d.pushes)
  {
    var p := PopPrints(c, d);
    PopKeepsOrder(c.queue, c.pushes, c.popped, c.evicted);
    FreshKeepsPairing(c.prints, c.pushes, p.event);
  }

  lemma FreshPopKeepsInv<T>(c: Channel<T>, d: Channel<T>)
    requires ChannelInv(c) && Step(c, Pop(false)) == Some(d) && c.queue != []
    ensures ChannelInv(d)
  {
    var p := PopPrints(c, d);
    PopKeepsCounts(c, d);
    FreshPopKeepsRecords(c, d);
    FreshKeepsStale(c.prints, c.current, p);
    PopKeepsEvents(c.prints, c.fate, p);
    if c.evicted == 0 {
      FreshPopKeepsPairing(c, d);
    }
  }

  lemma StepKeepsInv<T>(c: Channel<T>, e: Event<T>)
    requires ChannelInv(c) && Step(c, e).Some?
    ensures ChannelInv(Step(c, e).value)
  {
    var d := Step(c, e).value;
    if e.Push? {
      PushKeepsInv(c, e.rec);
    } else if e.Signal? || e.ReadSample? {
      EventMovesKeepInv(c, e, d);
    } else if !e.Pop? {
      ReadKeepsInv(c, e);
    } else if !e.fault {
      if c.queue == [] {
        EmptyPopKeepsInv(c, d);
      } else {
        FreshPopKeepsInv(c, d);
      }
    }
  }

  lemma {:induction false} ExecKeepsInv<T>(c: Channel<T>, run: seq<Event<T>>)
    requires ChannelInv(c) && Exec(c, run).Some?
    ensures ChannelInv(Exec(c, run).value)
    decreases |run|
  {
    if run != [] {
      StepKeepsInv(c, run[0]);
      ExecKeepsInv(Step(c, run[0]).value, run[1..]);
    }
  }

  lemma {:induction false} ExecConcat<T>(c: Channel<T>, first: seq<Event<T>>, second: seq<Event<T>>)
    ensures Exec(c, first + second) == match Exec(c, first) case Some(d) => Exec(d, second) case None => None
    decreases |first|
  {
    if first == [] {
      assert first + second == second;
    } else {
      assert (first + second)[1..] == first[1..] + second;
      if Step(c, first[0]).Some? {
        ExecConcat(Step(c, first[0]).value, first[1..], second);
      }
    }
  }

  // ----- events read in the order of the pushes -----

  // Events are output in the order of the pushes and read in the order of their output.
  predicate Timely<T>(c: Channel<T>, e: Event<T>) {
    match e
    case Signal(push, _) => forall k :: 0 <= k < push && k < |c.fate| ==> c.fate[k] != Unsignalled
    case ReadSample(push) => forall k :: 0 <= k < push && k < |c.fate| ==> c.fate[k] != InRing
    case _ => true
  }

  predicate InOrder<T>(c: Channel<T>, run: seq<Event<T>>)
    decreases |run|
  {
    run == [] || (Timely(c, run[0]) && (Step(c, run[0]).Some? ==> InOrder(Step(c, run[0]).value, run[1..])))
  }

  // The events of the pushes, in order: done with, in the ring, not output.
  ghost predicate FatesInOrder(fate: seq<Fate>) {
    && (forall k, l :: 0 <= k < l < |fate| && fate[l] != Unsignalled ==> fate[k] != Unsignalled)
    && (forall k, l :: 0 <= k < l < |fate| && (fate[l] == Held || fate[l] == Spent) ==>
          fate[k] == Lost || fate[k] == Spent)
  }

  function LostBefore(fate: seq<Fate>, push: nat): nat
    requires push <= |fate|
  {
    Count(fate[..push], Lost)
  }

  // The event of print j is as many pushes ahead of j as events before it were lost.
  ghost predicate Placed(fate: seq<Fate>, event: nat, j: nat) {
    Is(fate, event, Spent) && event == j + LostBefore(fate, event)
  }

  ghost predicate AllPlaced<T>(prints: seq<Print<T>>, fate: seq<Fate>) {
    forall j :: 0 <= j < |prints| ==> Placed(fate, prints[j].event, j)
  }

  ghost predicate PrintsInOrder<T>(c: Channel<T>) { FatesInOrder(c.fate) && AllPlaced(c.prints, c.fate) }

  /** An event that is done with has only lost and spent ones before it. */
  lemma BeforeDone(fate: seq<Fate>, push: nat)
    requires FatesInOrder(fate) && push < |fate| && (fate[push] == Held || fate[push] == Spent)
    ensures push == LostBefore(fate, push) + Count(fate[..push], Spent)
  {
    CountsSum(fate[..push]);
  }

  lemma HeldIsNext<T>(c: Channel<T>)
    requires Accounted(c) && FatesInOrder(c.fate) && c.holding.Some?
    ensures c.holding.value == |c.prints| + LostBefore(c.fate, c.holding.value)
  {
    var h := c.holding.value;
    BeforeDone(c.fate, h);
    assert c.fate == c.fate[..h] + c.fate[h..];
    assert Spent !in c.fate[h..];
  }

  // Nothing up to the event of an old print changes.
  lemma PlacedStays(fate: seq<Fate>, fate': seq<Fate>, event: nat, j: nat)
    requires Placed(fate, event, j) && event < |fate'| && forall k :: 0 <= k <= event ==> fate'[k] == fate[k]
    ensures Placed(fate', event, j)
  {
    assert fate'[..event] == fate[..event];
  }

  lemma PushKeepsPlaces<T>(prints: seq<Print<T>>, fate: seq<Fate>)
    requires FatesInOrder(fate) && AllPlaced(prints, fate)
    ensures FatesInOrder(fate + [Unsignalled]) && AllPlaced(prints, fate + [Unsignalled])
  {
    forall j | 0 <= j < |prints|
      ensures Placed(fate + [Unsignalled], prints[j].event, j)
    {
      PlacedStays(fate, fate + [Unsignalled], prints[j].event, j);
    }
  }

  // Only an event that is not done with is updated, and such an event comes after all that are.
  lemma UpdateKeepsPlaces<T>(prints: seq<Print<T>>, fate: seq<Fate>, push: nat, f: Fate)
    requires FatesInOrder(fate) && AllPlaced(prints, fate)
    requires push < |fate| && fate[push] != Spent && fate[push] != Lost
    ensures AllPlaced(prints, fate[push := f])
  {
    forall j | 0 <= j < |prints|
      ensures Placed(fate[push := f], prints[j].event, j)
    {
      assert Placed(fate, prints[j].event, j);
      assert prints[j].event < push;
      PlacedStays(fate, fate[push := f], prints[j].event, j);
    }
  }

  lemma SignalKeepsFates(fate: seq<Fate>, push: nat, f: Fate)
    requires FatesInOrder(fate) && Is(fate, push, Unsignalled) && (f == InRing || f == Lost)
    requires forall k :: 0 <= k < push ==> fate[k] != Unsignalled
    ensures FatesInOrder(fate[push := f])
  {
  }

  lemma ReadKeepsFates(fate: seq<Fate>, push: nat)
    requires FatesInOrder(fate) && Is(fate, push, InRing) && Count(fate, Held) == 0
    requires forall k :: 0 <= k < push ==> fate[k] != InRing
    ensures FatesInOrder(fate[push := Held])
  {
    assert Held !in fate;
  }

  lemma SpendKeepsFates(fate: seq<Fate>, h: nat)
    requires FatesInOrder(fate) && Is(fate, h, Held)
    ensures FatesInOrder(fate[h := Spent])
  {
  }

  lemma EventMovesKeepPrintOrder<T>(c: Channel<T>, e: Event<T>, d: Channel<T>)
    requires Accounted(c) && PrintsInOrder(c) && Timely(c, e)
    requires (e.Signal? || e.ReadSample?) && Step(c, e) == Some(d)
    ensures PrintsInOrder(d)
  {
    EventMoves(c, e, d);
    UpdateKeepsPlaces(c.prints, c.fate, e.push, d.fate[e.push]);
    if e.Signal? {
      SignalKeepsFates(c.fate, e.push, d.fate[e.push]);
    } else {
      ReadKeepsFates(c.fate, e.push);
    }
  }

  lemma PopKeepsPlaces<T>(prints: seq<Print<T>>, fate: seq<Fate>, p: Print<T>)
    requires FatesInOrder(fate) && AllPlaced(prints, fate) && Is(fate, p.event, Held)
    requires p.event == |prints| + LostBefore(fate, p.event)
    ensures AllPlaced(prints + [p], fate[p.event := Spent])
  {
    UpdateKeepsPlaces(prints, fate, p.event, Spent);
    assert fate[p.event := Spent][..p.event] == fate[..p.event];
    assert Placed(fate[p.event := Spent], p.event, |prints|);
  }

  lemma PopKeepsPrintOrder<T>(c: Channel<T>, d: Channel<T>)
    requires Accounted(c) && PrintsInOrder(c) && Step(c, Pop(false)) == Some(d)
    ensures PrintsInOrder(d)
  {
    var p := PopPrints(c, d);
    HeldIsNext(c);
    PopKeepsPlaces(c.prints, c.fate, p);
    SpendKeepsFates(c.fate, p.event);
  }

  lemma StepKeepsPrintOrder<T>(c: Channel<T>, e: Event<T>, d: Channel<T>)
    requires Accounted(c) && PrintsInOrder(c) && Timely(c, e) && Step(c, e) == Some(d)
    ensures PrintsInOrder(d)
  {
    if e.Push? {
      PushKeepsPlaces(c.prints, c.fate);
    } else if e.Signal? || e.ReadSample? {
      EventMovesKeepPrintOrder(c, e, d);
    } else if e.Pop? && !e.fault {
      PopKeepsPrintOrder(c, d);
    }
  }

  lemma {:induction false} ExecKeepsPrintOrder<T>(c: Channel<T>, run: seq<Event<T>>)
    requires ChannelInv(c) && PrintsInOrder(c) && InOrder(c, run) && Exec(c, run).Some?
    ensures PrintsInOrder(Exec(c, run).value)
    decreases |run|
  {
    if run != [] {
      StepKeepsInv(c, run[0]);
      StepKeepsPrintOrder(c, run[0], Step(c, run[0]).value);
      ExecKeepsPrintOrder(Step(c, run[0]).value, run[1..]);
    }
  }

  // ----- theorems about every run from an empty channel -----

  ghost predicate Reached<T(!new)>(zero: T, c: Channel<T>) {
    exists run :: Exec(Empty(zero), run) == Some(c)
  }

  ghost predicate ReachedInOrder<T(!new)>(zero: T, c: Channel<T>) {
    exists run :: Exec(Empty(zero), run) == Some(c) && InOrder(Empty(zero), run)
  }

  lemma ReachedInv<T(!new)>(zero: T, c: Channel<T>)
    requires Reached(zero, c)
    ensures ChannelInv(c)
  {
    var run :| Exec(Empty(zero), run) == Some(c);
    EmptyInv(zero);
    ExecKeepsInv(Empty(zero), run);
  }

  lemma ReachedInOrderInv<T(!new)>(zero: T, c: Channel<T>)
    requires ReachedInOrder(zero, c)
    ensures ChannelInv(c) && PrintsInOrder(c)
  {
    var run :| Exec(Empty(zero), run) == Some(c) && InOrder(Empty(zero), run);
    EmptyInv(zero);
    ExecKeepsInv(Empty(zero), run);
    ExecKeepsPrintOrder(Empty(zero), run);
  }

  /** Conservation of events and records, in every reachable state. */
  lemma Accounting<T(!new)>(zero: T, c: Channel<T>)
    requires Reached(zero, c)
    ensures c.emptyReads + Count(c.fate, InRing) + Count(c.fate, Held) + Count(c.fate, Unsignalled)
      + Count(c.fate, Lost) == c.evicted + |c.queue|
    ensures c.popped + c.evicted + |c.queue| == |c.pushes|
    ensures StaleCount(c.prints) == c.emptyReads <= c.evicted
  {
    ReachedInv(zero, c);
    Balance(c);
  }

  /** The next pop finds the queue empty exactly when the evictions have left no record for its event. */
  lemma EmptyPopIff<T(!new)>(zero: T, c: Channel<T>, d: Channel<T>)
    requires Reached(zero, c) && Step(c, Pop(false)) == Some(d)
    ensures d.emptyReads > c.emptyReads <==>
      c.evicted == c.emptyReads + Count(c.fate, InRing) + 1 + Count(c.fate, Unsignalled) + Count(c.fate, Lost)
  {
    ReachedInv(zero, c);
    Balance(c);
  }

  /** How many lost events the reader has been told of in the run. */
  function Reported<T>(run: seq<Event<T>>): nat {
    if run == [] then 0 else (if run[0].ReadLost? then run[0].count else 0) + Reported(run[1..])
  }

  lemma LossMoves<T>(c: Channel<T>, e: Event<T>, d: Channel<T>)
    requires Step(c, e) == Some(d)
    ensures d.unreported + Count(c.fate, Lost) + Reported([e]) == c.unreported + Count(d.fate, Lost)
  {
    if e.Signal? || e.ReadSample? {
      CountUpdate(c.fate, e.push, d.fate[e.push]);
    } else if e.Pop? && !e.fault {
      CountUpdate(c.fate, c.holding.value, Spent);
    }
  }

  lemma {:induction false} LossesFollow<T>(c: Channel<T>, run: seq<Event<T>>, d: Channel<T>)
    requires Exec(c, run) == Some(d)
    ensures d.unreported + Count(c.fate, Lost) + Reported(run) == c.unreported + Count(d.fate, Lost)
    decreases |run|
  {
    if run != [] {
      LossMoves(c, run[0], Step(c, run[0]).value);
      assert [run[0]][1..] == [];
      LossesFollow(Step(c, run[0]).value, run[1..], d);
    }
  }

  /** Every lost event is reported to the reader once or still to be reported. */
  lemma LossesAreReported<T>(zero: T, run: seq<Event<T>>, c: Channel<T>)
    requires Exec(Empty(zero), run) == Some(c)
    ensures Reported(run) + c.unreported == Count(c.fate, Lost)
  {
    LossesFollow(Empty(zero), run, c);
  }

  /** After the pump has exited it reads, pops and prints nothing, whatever is still pushed and output. */
  lemma {:induction false} ExitIsFinal<T>(c: Channel<T>, run: seq<Event<T>>, d: Channel<T>)
    requires c.exited && Exec(c, run) == Some(d)
    ensures d.exited && d.prints == c.prints && d.popped == c.popped && d.holding == c.holding
    ensures d.current == c.current && d.emptyReads == c.emptyReads
    ensures forall i :: 0 <= i < |run| ==> run[i].Push? || run[i].Signal?
    decreases |run|
  {
    if run != [] {
      ExitIsFinal(Step(c, run[0]).value, run[1..], d);
      assert forall i :: 0 < i < |run| ==> run[i] == run[1..][i - 1];
    }
  }

  /** Every print shows a record that was pushed. */
  lemma {:induction false} PrintShowsPush<T>(prints: seq<Print<T>>, pushes: seq<T>, gone: nat, current: T, i: nat)
    requires FreshInOrder(prints, pushes, gone) && StaleRepeats(prints, current) && i < |prints|
    ensures prints[i].rec in pushes
  {
    if prints[i].Stale? {
      assert prints[i].rec == prints[i - 1].rec;
      PrintShowsPush(prints, pushes, gone, current, i - 1);
    }
  }

  /** The queue is the suffix of the pushes that have been neither popped nor evicted; fresh prints are
      pushes in their order, and no event is printed for twice. */
  lemma QueueOrder<T(!new)>(zero: T, c: Channel<T>)
    requires Reached(zero, c)
    ensures |c.queue| <= 5120 && c.popped + c.evicted <= |c.pushes|
    ensures c.evicted > 0 ==> c.popped + |c.queue| >= 5120
    ensures c.queue == c.pushes[c.popped + c.evicted..]
    ensures forall i :: 0 <= i < |c.prints| && c.prints[i].Fresh? ==>
      c.prints[i].index < |c.pushes| && c.prints[i].rec == c.pushes[c.prints[i].index]
    ensures forall i, j :: 0 <= i < j < |c.prints| && c.prints[i].Fresh? && c.prints[j].Fresh? ==>
      c.prints[i].index < c.prints[j].index
    ensures forall i, j :: 0 <= i < j < |c.prints| ==> c.prints[i].event != c.prints[j].event
  {
    ReachedInv(zero, c);
  }

  /** Whatever is printed was pushed: a stale print repeats the one before it, and the first of them comes
      after as many prints as the queue holds, so the initial value of the variable is never shown. */
  lemma PrintsArePushes<T(!new)>(zero: T, c: Channel<T>, i: nat)
    requires Reached(zero, c) && i < |c.prints|
    ensures c.prints[i].rec in c.pushes
    ensures c.prints[i].Stale? ==> i >= 5120 && c.prints[i].rec == c.prints[i - 1].rec
  {
    ReachedInv(zero, c);
    PrintShowsPush(c.prints, c.pushes, c.popped + c.evicted, c.current, i);
  }

  /** Without eviction every event read finds a record, and the j-th one finds the j-th push, whichever push
      it was output for and even after events were lost. Each lost event leaves one record behind for good:
      when all is quiet, the prints lag behind the pushes by exactly the number of lost events. */
  lemma WithoutEviction<T(!new)>(zero: T, c: Channel<T>)
    requires Reached(zero, c) && c.evicted == 0
    ensures c.emptyReads == 0 && |c.prints| <= |c.pushes|
    ensures forall j :: 0 <= j < |c.prints| ==> c.prints[j] == Fresh(c.prints[j].event, j, c.pushes[j])
    ensures Count(c.fate, Unsignalled) == 0 && Count(c.fate, InRing) == 0 && c.holding.None? ==>
      |c.pushes| == |c.prints| + Count(c.fate, Lost)
  {
    ReachedInv(zero, c);
    Balance(c);
  }

  /** With events output in the order of the pushes and read in that order, the event behind the j-th print
      is exactly as many pushes ahead of j as events before it were lost. So, without eviction, the record
      printed is the one its event was output for exactly when no earlier event was lost. */
  lemma MatchesIff<T(!new)>(zero: T, c: Channel<T>, j: nat)
    requires ReachedInOrder(zero, c) && j < |c.prints|
    ensures c.prints[j].event < |c.pushes| == |c.fate|
    ensures c.prints[j].event == j + LostBefore(c.fate, c.prints[j].event)
    ensures c.evicted == 0 ==>
      && c.prints[j].Fresh?
      && (c.prints[j].index == c.prints[j].event <==> forall k :: 0 <= k < c.prints[j].event ==> c.fate[k] != Lost)
  {
    ReachedInOrderInv(zero, c);
    assert Placed(c.fate, c.prints[j].event, j);
    var before := c.fate[..c.prints[j].event];
    assert Lost in before <==> exists k :: 0 <= k < |before| && c.fate[k] == Lost;
  }

  /** With evictions too: the next pop finds the record that the event was output for exactly when the events
      lost before it are as many as the evictions that no empty read has made up for. */
  lemma NextMatchesIff<T(!new)>(zero: T, c: Channel<T>, d: Channel<T>)
    requires ReachedInOrder(zero, c) && Step(c, Pop(false)) == Some(d)
    ensures |d.prints| == |c.prints| + 1 && c.holding == Some(d.prints[|c.prints|].event)
    ensures c.holding.value < |c.fate|
    ensures var p := d.prints[|c.prints|];
      p.Fresh? && p.index == p.event <==> LostBefore(c.fate, c.holding.value) == c.evicted - c.emptyReads
  {
    ReachedInOrderInv(zero, c);
    HeldIsNext(c);
    Balance(c);
    assert c.fate == c.fate[..c.holding.value] + c.fate[c.holding.value..];
  }

  // The smallest run in which the ring drops an event.
  const AFTER_A_LOSS: seq<Event<nat>> :=
    [Push(10), Push(11), Signal(0, false), Signal(1, true), ReadSample(1), Pop(false)]

  // The smallest run in which two threads output their events in the other order.
  const OVERTAKEN: seq<Event<nat>> := [Push(10), Push(11), Signal(1, true), ReadSample(1), Pop(false)]

  /** After a loss the record printed is not the one its event was output for. */
  lemma LossMismatches()
    ensures InOrder(Empty(0), AFTER_A_LOSS)
    ensures Exec(Empty(0), AFTER_A_LOSS).Some? && Exec(Empty(0), AFTER_A_LOSS).value.prints == [Fresh(1, 0, 10)]
  {
  }

  /** Nor is it when nothing is lost or evicted, but two threads push in one order and output in the other. */
  lemma OvertakingMismatches()
    ensures Exec(Empty(0), OVERTAKEN).Some?
    ensures var c := Exec(Empty(0), OVERTAKEN).value;
      c.prints == [Fresh(1, 0, 10)] && c.evicted == 0 && Count(c.fate, Lost) == 0
  {
  }
}
