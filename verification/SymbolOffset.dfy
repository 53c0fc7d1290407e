/** From the name of a function to its offset in the file: GetOffsetBySymbol over the symbol tables and the
    program headers of an ELF file. */
module SymbolOffset {
  import opened Wrappers
  import opened Bytes

  const STT_FUNC: nat := 2
  const PT_LOAD: nat := 1

  datatype Symbol = Symbol(name: string, info: nat, value: U64)
  datatype Segment = Segment(kind: nat, flags: nat, vaddr: U64, memsz: U64, off: U64)

  // What reading one of the two symbol tables gives.
  datatype Table = Symbols(syms: seq<Symbol>) | NoSymbols | BadTable

  datatype Error = CannotOpen | CannotParse | CannotReadSymbols | SymbolNotFound

  // The file as far as this function looks at it.
  datatype Binary = Binary(opens: bool, parses: bool, symbols: Table, dynamicSymbols: Table, progs: seq<Segment>)

  predicate IsFunction(s: Symbol) { s.info % 16 == STT_FUNC }

  predicate Executable(p: Segment) { p.kind == PT_LOAD && p.flags % 2 == 1 }

  // The containment test of the loop; the sum is on uint64.
  predicate Guard(p: Segment, v: U64) { p.vaddr <= v < (p.vaddr + p.memsz) % TWO64 }

  function SymsOf(t: Table): seq<Symbol> { if t.Symbols? then t.syms else [] }

  /** The first function symbol of that name. */
  function FirstFunction(syms: seq<Symbol>, name: string): Option<Symbol> {
    if syms == [] then None
    else if syms[0].name == name && IsFunction(syms[0]) then Some(syms[0])
    else FirstFunction(syms[1..], name)
  }

  /** Where the first executable segment that passes the test puts v, or v itself. */
  function FileOffset(progs: seq<Segment>, v: U64): U64 {
    if progs == [] then v
    else if Executable(progs[0]) && Guard(progs[0], v) then (v - progs[0].vaddr + progs[0].off) % TWO64
    else FileOffset(progs[1..], v)
  }

  lemma NextSymbol(syms: seq<Symbol>, i: nat, name: string)
    requires i < |syms|
    ensures FirstFunction(syms[i..], name) ==
      if syms[i].name == name && IsFunction(syms[i]) then Some(syms[i]) else FirstFunction(syms[i + 1..], name)
  {
    assert syms[i..][1..] == syms[i + 1..];
  }

  lemma NextSegment(progs: seq<Segment>, j: nat, v: U64)
    requires j < |progs|
    ensures FileOffset(progs[j..], v) ==
      if Executable(progs[j]) && Guard(progs[j], v) then (v - progs[j].vaddr + progs[j].off) % TWO64
      else FileOffset(progs[j + 1..], v)
  {
    assert progs[j..][1..] == progs[j + 1..];
  }

  method GetOffsetBySymbol(b: Binary, symbol: string) returns (r: Result<U64, Error>)
    ensures !b.opens ==> r == Err(CannotOpen)
    ensures b.opens && !b.parses ==> r == Err(CannotParse)
    ensures b.opens && b.parses && (b.symbols.BadTable? || b.dynamicSymbols.BadTable?) ==> r == Err(CannotReadSymbols)
    ensures b.opens && b.parses && !b.symbols.BadTable? && !b.dynamicSymbols.BadTable? ==>
      r == match FirstFunction(SymsOf(b.symbols) + SymsOf(b.dynamicSymbols), symbol)
           case Some(s) => Ok(FileOffset(b.progs, s.value))
           case None => Err(SymbolNotFound)
  {
    if !b.opens {
      return Err(CannotOpen);
    }
    if !b.parses {
      return Err(CannotParse);
    }
    if b.symbols.BadTable? {
      return Err(CannotReadSymbols);
    }
    var syms := SymsOf(b.symbols);
    if b.dynamicSymbols.BadTable? {
      return Err(CannotReadSymbols);
    }
    syms := syms + SymsOf(b.dynamicSymbols);
    assert syms[0..] == syms;

    for i := 0 to |syms|
      invariant FirstFunction(syms, symbol) == FirstFunction(syms[i..], symbol)
    {
      var s := syms[i];
      NextSymbol(syms, i, symbol);
      if s.name == symbol {
        if !IsFunction(s) {
          continue;
        }
        var off := s.value;
        assert b.progs[0..] == b.progs;
        for j := 0 to |b.progs|
          invariant off == s.value && FileOffset(b.progs, off) == FileOffset(b.progs[j..], off)
        {
          var prog := b.progs[j];
          NextSegment(b.progs, j, s.value);
          if prog.kind != PT_LOAD || prog.flags % 2 == 0 {
            continue;
          }
          if prog.vaddr <= s.value < (prog.vaddr + prog.memsz) % TWO64 {
            off := (s.value - prog.vaddr + prog.off) % TWO64;
            break;
          }
        }
        return Ok(off);
      }
    }
    return Err(SymbolNotFound);
  }

  // ----- the symbol -----

  // A symbol of that name whose type, the low half of its info, is 2: a function, of whatever binding.
  predicate Wanted(s: Symbol, name: string) { s.name == name && s.info % 16 == 2 }

  /** The symbol found is a function of that name and no earlier one is; none is found exactly when the
      tables hold no such function. */
  lemma {:induction false} FirstFunctionIsFirst(syms: seq<Symbol>, name: string)
    ensures FirstFunction(syms, name).None? <==> forall s :: s in syms ==> !Wanted(s, name)
    ensures FirstFunction(syms, name).Some? ==>
      exists i :: 0 <= i < |syms| && FirstFunction(syms, name) == Some(syms[i]) && Wanted(syms[i], name)
        && forall k :: 0 <= k < i ==> !Wanted(syms[k], name)
  {
    if syms != [] && !Wanted(syms[0], name) {
      FirstFunctionIsFirst(syms[1..], name);
      if FirstFunction(syms, name).Some? {
        var i :| 0 <= i < |syms[1..]| && FirstFunction(syms, name) == Some(syms[1..][i])
          && Wanted(syms[1..][i], name) && forall k :: 0 <= k < i ==> !Wanted(syms[1..][k], name);
        assert syms[i + 1] == syms[1..][i];
        forall k | 0 <= k < i + 1
          ensures !Wanted(syms[k], name)
        {
          assert k > 0 ==> syms[k] == syms[1..][k - 1];
        }
      }
    }
  }

  // ----- the address -----

  /** The segment holds the address, as the program header says. */
  predicate Holds(p: Segment, v: U64) { Loaded(p) && p.vaddr <= v < p.vaddr + p.memsz }

  // A segment of type 1, PT_LOAD, with the execute bit, the lowest of its flags.
  predicate Loaded(p: Segment) { p.kind == 1 && p.flags % 2 == 1 }

  // The end of the segment is an address, and so is the end of its image in the file.
  predicate NoWrap(p: Segment) {
    p.vaddr + p.memsz < 0x1_0000_0000_0000_0000 && p.off + p.memsz <= 0x1_0000_0000_0000_0000
  }

  /** The test of the loop is wrong for an address exactly when the end of the segment wraps and the address
      is not below its start: it then misses an address that the segment holds. */
  lemma GuardIsExactIff(p: Segment, v: U64)
    requires Loaded(p)
    ensures Executable(p)
    ensures (Guard(p, v) <==> Holds(p, v)) <==> !(p.vaddr + p.memsz >= 0x1_0000_0000_0000_0000 && p.vaddr <= v)
  {
  }

  ghost predicate Disjoint(progs: seq<Segment>) {
    forall i, j :: 0 <= i < j < |progs| ==> forall v: U64 :: !(Holds(progs[i], v) && Holds(progs[j], v))
  }

  /** The offset is that of the first segment holding the address, or the address when there is none. */
  lemma {:induction false} OffsetOfFirst(progs: seq<Segment>, v: U64)
    requires forall p :: p in progs && Loaded(p) ==> NoWrap(p)
    ensures (forall p :: p in progs ==> !Holds(p, v)) ==> FileOffset(progs, v) == v
    ensures (exists p :: p in progs && Holds(p, v)) ==>
      exists i :: 0 <= i < |progs| && Holds(progs[i], v) && FileOffset(progs, v) == v - progs[i].vaddr + progs[i].off
        && forall k :: 0 <= k < i ==> !Holds(progs[k], v)
  {
    if progs != [] {
      if Loaded(progs[0]) {
        GuardIsExactIff(progs[0], v);
      }
      if !Holds(progs[0], v) {
        OffsetOfFirst(progs[1..], v);
        if exists p :: p in progs && Holds(p, v) {
          var i :| 0 <= i < |progs[1..]| && Holds(progs[1..][i], v)
            && FileOffset(progs[1..], v) == v - progs[1..][i].vaddr + progs[1..][i].off
            && forall k :: 0 <= k < i ==> !Holds(progs[1..][k], v);
          assert progs[i + 1] == progs[1..][i];
          forall k | 0 <= k < i + 1
            ensures !Holds(progs[k], v)
          {
            assert k > 0 ==> progs[k] == progs[1..][k - 1];
          }
        }
      }
    }
  }

  /** With disjoint segments whose ends do not wrap, the result is the one offset at which the file holds
      the byte of that address: every segment that holds the address puts it there, and that segment maps
      the offset back to the address. */
  lemma OffsetMapsBack(progs: seq<Segment>, v: U64, i: nat)
    requires Disjoint(progs) && (forall p :: p in progs && Loaded(p) ==> NoWrap(p))
    requires i < |progs| && Holds(progs[i], v)
    ensures progs[i].off <= FileOffset(progs, v) < progs[i].off + progs[i].memsz
    ensures FileOffset(progs, v) - progs[i].off + progs[i].vaddr == v
  {
    OffsetOfFirst(progs, v);
    assert progs[i] in progs;
    var k :| 0 <= k < |progs| && Holds(progs[k], v) && FileOffset(progs, v) == v - progs[k].vaddr + progs[k].off
      && forall j :: 0 <= j < k ==> !Holds(progs[j], v);
    assert k == i;
  }
}
