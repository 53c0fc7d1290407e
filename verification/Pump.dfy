/** The loop of the event pump. */
module Pump {
  import opened Wrappers
  import opened EventQueue

  // What one round of the loop meets: what the producers do before it reads, what the read delivers, and,
  // for a sample, what the producers do before it pops and whether the pop fails.
  datatype Round<T> =
    | Cancelled(before: seq<Event<T>>)
    | Failed(before: seq<Event<T>>)
    | Closed(before: seq<Event<T>>)
    | Lost(before: seq<Event<T>>, count: nat)
    | Sample(before: seq<Event<T>>, push: nat, between: seq<Event<T>>, fault: bool)

  datatype Exit = ReturnedNil | ReturnedErr | StillRunning

  /** The channel events of a round. */
  function EventsOf<T>(r: Round<T>): seq<Event<T>> {
    match r
    case Cancelled(before) => before + [ContextDone]
    case Failed(before) => before + [ReadFails]
    case Closed(before) => before + [ReadClosed]
    case Lost(before, count) => before + [ReadLost(count)]
    case Sample(before, push, between, fault) => before + [ReadSample(push)] + between + [Pop(fault)]
  }

  /** The channel after the first n rounds, or None when they ask for an event that it cannot give. */
  function After<T>(c: Channel<T>, rounds: seq<Round<T>>, n: nat): Option<Channel<T>>
    requires n <= |rounds|
  {
    if n == 0 then Some(c)
    else match After(c, rounds, n - 1)
      case None => None
      case Some(d) => Exec(d, EventsOf(rounds[n - 1]))
  }

  function Final<T>(r: Round<T>): Exit {
    match r
    case Cancelled(_) => ReturnedNil
    case Closed(_) => ReturnedErr
    case Sample(_, _, _, fault) => if fault then ReturnedErr else StillRunning
    case _ => StillRunning
  }

  /** None of the first n rounds ends the loop: no done context, no closed reader, no failed pop. */
  predicate RunOn<T>(rounds: seq<Round<T>>, n: nat)
    requires n <= |rounds|
  {
    forall i :: 0 <= i < n ==> rounds[i].Failed? || rounds[i].Lost? || (rounds[i].Sample? && !rounds[i].fault)
  }

  /** What the loop answers after n rounds: nil if the context was done in the last of them, an error if the
      reader was closed or the pop failed, nothing yet otherwise. */
  predicate Ends<T>(exit: Exit, rounds: seq<Round<T>>, n: nat)
    requires n <= |rounds|
  {
    && (exit.ReturnedNil? <==> n > 0 && rounds[n - 1].Cancelled?)
    && (exit.ReturnedErr? <==> n > 0 && (rounds[n - 1].Closed? || (rounds[n - 1].Sample? && rounds[n - 1].fault)))
  }

  predicate Producer<T>(e: Event<T>) { e.Push? || e.Signal? }

  predicate Producers<T>(events: seq<Event<T>>) { forall i :: 0 <= i < |events| ==> Producer(events[i]) }

  predicate WellFormed<T>(r: Round<T>) { Producers(r.before) && (r.Sample? ==> Producers(r.between)) }

  lemma ThenOne<T>(c: Channel<T>, first: seq<Event<T>>, e: Event<T>)
    ensures Exec(c, first + [e]) == match Exec(c, first) case Some(d) => Step(d, e) case None => None
  {
    ExecConcat(c, first, [e]);
    assert [e][1..] == [];
  }

  /** A round, event by event. */
  lemma EventsSplit<T>(c: Channel<T>, r: Round<T>)
    requires Exec(c, EventsOf(r)).Some?
    ensures Exec(c, r.before).Some?
    ensures var d := Exec(c, r.before).value;
      match r
      case Cancelled(_) => Exec(c, EventsOf(r)) == Step(d, ContextDone)
      case Failed(_) => Exec(c, EventsOf(r)) == Step(d, ReadFails)
      case Closed(_) => Exec(c, EventsOf(r)) == Step(d, ReadClosed)
      case Lost(_, count) => Exec(c, EventsOf(r)) == Step(d, ReadLost(count))
      case Sample(_, push, between, fault) =>
        && Step(d, ReadSample(push)).Some? && Exec(Step(d, ReadSample(push)).value, between).Some?
        && Exec(c, EventsOf(r)) == Step(Exec(Step(d, ReadSample(push)).value, between).value, Pop(fault))
  {
    match r
    case Cancelled(before) => ThenOne(c, before, ContextDone);
    case Failed(before) => ThenOne(c, before, ReadFails);
    case Closed(before) => ThenOne(c, before, ReadClosed);
    case Lost(before, count) => ThenOne(c, before, ReadLost(count));
    case Sample(before, push, between, fault) =>
      ThenOne(c, before + [ReadSample(push)] + between, Pop(fault));
      ExecConcat(c, before + [ReadSample(push)], between);
      ThenOne(c, before, ReadSample(push));
  }

  /** The channel and the producers can give every round up to the first that ends the loop. */
  ghost predicate Offers<T>(c: Channel<T>, rounds: seq<Round<T>>) {
    forall n :: 0 <= n < |rounds| && RunOn(rounds, n) ==> WellFormed(rounds[n]) && After(c, rounds, n + 1).Some?
  }

  lemma NextIsOffered<T>(c: Channel<T>, rounds: seq<Round<T>>, n: nat)
    requires n < |rounds| && Offers(c, rounds) && RunOn(rounds, n)
    ensures WellFormed(rounds[n]) && After(c, rounds, n).Some? && After(c, rounds, n + 1).Some?
    ensures After(c, rounds, n + 1) == Exec(After(c, rounds, n).value, EventsOf(rounds[n]))
  {
  }

  class EventPump<T(!new)> {
    // The BPF queue, which the producers share.
    var queue: seq<T>
    var dbCtx: T
    var printed: seq<T>
    ghost var chan: Channel<T>

    ghost predicate Valid()
      reads this
    {
      && chan.queue == queue && chan.current == dbCtx
      && |printed| == |chan.prints|
      && forall i :: 0 <= i < |printed| ==> printed[i] == chan.prints[i].rec
    }

    constructor (zero: T)
      ensures Valid() && chan == Empty(zero) && printed == []
    {
      queue, dbCtx, printed, chan := [], zero, [], Empty(zero);
    }

    // The producers at work; their events do not touch the variables of the pump.
    method Produce(events: seq<Event<T>>)
      requires Valid() && Exec(chan, events).Some? && Producers(events)
      modifies this`queue, this`chan
      ensures Valid() && chan == Exec(old(chan), events).value
      ensures chan.holding == old(chan.holding) && chan.exited == old(chan.exited) && printed == old(printed)
    {
      ghost var start := chan;
      for i := 0 to |events|
        invariant Valid() && Exec(start, events[..i]) == Some(chan)
        invariant chan.holding == start.holding && chan.exited == start.exited
      {
        assert events[..i + 1] == events[..i] + [events[i]];
        assert events == events[..i] + events[i..];
        ExecConcat(start, events[..i], events[i..]);
        ExecConcat(start, events[..i], [events[i]]);
        assert [events[i]][1..] == [];
        chan := Step(chan, events[i]).value;
        if events[i].Push? {
          queue := Pushed(queue, events[i].rec);
        }
      }
      assert events[..|events|] == events;
    }

    // LookupAndDelete, and the print that follows unless it failed.
    method Take(fault: bool)
      requires Valid() && Step(chan, Pop(fault)).Some?
      modifies this
      ensures Valid() && Step(old(chan), Pop(fault)) == Some(chan)
      ensures printed == old(printed) + if fault then [] else [dbCtx]
    {
      chan := Step(chan, Pop(fault)).value;
      if fault {
        return;
      }
      if queue != [] {
        dbCtx := queue[0];
        queue := queue[1..];
      }
      printed := printed + [dbCtx];
    }

    /** One round of the loop. */
    method Turn(r: Round<T>) returns (exit: Exit)
      requires Valid() && !chan.exited && chan.holding.None? && WellFormed(r) && Exec(chan, EventsOf(r)).Some?
      modifies this
      ensures Valid() && Exec(old(chan), EventsOf(r)) == Some(chan)
      ensures exit == Final(r) && (exit.StillRunning? <==> !chan.exited)
      ensures exit.StillRunning? ==> chan.holding.None?
      ensures printed == old(printed) + if r.Sample? && !r.fault then [dbCtx] else []
      ensures exit.ReturnedNil? <==> r.Cancelled?
      ensures exit.ReturnedErr? <==> r.Closed? || (r.Sample? && r.fault)
    {
      EventsSplit(chan, r);
      Produce(r.before);
      match r {
        case Cancelled(_) =>
          chan := Step(chan, ContextDone).value;
          return ReturnedNil;
        case Failed(_) =>
          return StillRunning;
        case Closed(_) =>
          chan := Step(chan, ReadClosed).value;
          return ReturnedErr;
        case Lost(_, count) =>
          chan := Step(chan, ReadLost(count)).value;
          return StillRunning;
        case Sample(_, push, between, fault) =>
          chan := Step(chan, ReadSample(push)).value;
          Produce(between);
          Take(fault);
          return if fault then ReturnedErr else StillRunning;
      }
    }

    // The round after the first n of those offered to the channel start.
    method NextTurn(ghost start: Channel<T>, rounds: seq<Round<T>>, n: nat) returns (exit: Exit)
      requires Valid() && !chan.exited && chan.holding.None? && n < |rounds|
      requires Offers(start, rounds) && RunOn(rounds, n) && After(start, rounds, n) == Some(chan)
      modifies this
      ensures Valid() && After(start, rounds, n + 1) == Some(chan)
      ensures Ends(exit, rounds, n + 1) && (exit.StillRunning? ==> RunOn(rounds, n + 1))
      ensures exit.StillRunning? <==> !chan.exited
      ensures exit.StillRunning? ==> chan.holding.None?
    {
      NextIsOffered(start, rounds, n);
      exit := Turn(rounds[n]);
    }

    /** eventPump.Start, offered a series of rounds: it takes them up to the first that ends the loop and no
        further, and leaves the channel as the events of those rounds do. Only those need be possible. */
    method Start(rounds: seq<Round<T>>) returns (exit: Exit, n: nat)
      requires Valid() && !chan.exited && chan.holding.None?
      requires Offers(chan, rounds)
      modifies this
      ensures Valid() && n <= |rounds| && After(old(chan), rounds, n) == Some(chan)
      ensures Ends(exit, rounds, n) && (n > 0 ==> RunOn(rounds, n - 1))
      ensures exit.StillRunning? ==> n == |rounds| && RunOn(rounds, n)
      ensures exit.StillRunning? <==> !chan.exited
    {
      exit, n := StillRunning, 0;
      ghost var start := chan;
      while n < |rounds|
        invariant n <= |rounds| && exit.StillRunning? && Valid() && !chan.exited && chan.holding.None?
        invariant After(start, rounds, n) == Some(chan) && RunOn(rounds, n) && Ends(exit, rounds, n)
      {
        exit := NextTurn(start, rounds, n);
        n := n + 1;
        if !exit.StillRunning? {
          return;
        }
      }
    }
  }

  lemma {:induction false} RoundsKeepInv<T>(c: Channel<T>, rounds: seq<Round<T>>, n: nat, d: Channel<T>)
    requires ChannelInv(c) && n <= |rounds| && After(c, rounds, n) == Some(d)
    ensures ChannelInv(d)
  {
    if n > 0 {
      var e := After(c, rounds, n - 1).value;
      RoundsKeepInv(c, rounds, n - 1, e);
      ExecKeepsInv(e, EventsOf(rounds[n - 1]));
    }
  }

  /** What a new pump has printed after any rounds: only pushed records; without eviction the pushes, in
      order, one for each event read; with evictions at most that many of its prints repeat the record before
      them. */
  lemma PumpOutput<T>(zero: T, rounds: seq<Round<T>>, n: nat, c: Channel<T>)
    requires n <= |rounds| && After(Empty(zero), rounds, n) == Some(c)
    ensures |c.prints| == c.popped + c.emptyReads && c.emptyReads <= c.evicted
    ensures c.evicted == 0 ==>
      |c.prints| <= |c.pushes| && forall i :: 0 <= i < |c.prints| ==> c.prints[i].rec == c.pushes[i]
    ensures forall i :: 0 <= i < |c.prints| ==> c.prints[i].rec in c.pushes
    ensures forall i, j :: 0 <= i < |c.prints| - 1 && j == i + 1 && c.prints[j].Stale? ==>
      c.prints[j].rec == c.prints[i].rec
  {
    EmptyInv(zero);
    RoundsKeepInv(Empty(zero), rounds, n, c);
    forall i | 0 <= i < |c.prints|
      ensures c.prints[i].rec in c.pushes
    {
      PrintShowsPush(c.prints, c.pushes, c.popped + c.evicted, c.current, i);
    }
  }
}
