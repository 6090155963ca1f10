/** The two-clock FIFO, seen through unbounded counters.

    Every pointer register is replaced by the number of accepted writes or reads it
    stands for; the RAM keeps its real, modular addressing.  `AsyncFifo` shows that the
    registers, Gray-coded and sampled bit by bit, follow exactly these steps. */
module AsyncFifoModel {
  import opened Modular

  datatype Fifo<T> = Fifo(
    depth: nat,
    // write clock domain
    w: nat,      // accepted writes, behind wr_bptr_a
    wg: nat,     // behind wr_gptr_a, one edge late
    rs1: nat,    // reads seen by the first sampling register
    rs2: nat,    // by the second
    rs: nat,     // and after the conversion to binary
    wCnt: nat,   // registered operands of wr_cnt
    rsCnt: nat,
    pend: bool,  // a word is in the input pipeline
    dat1: T,
    // read clock domain
    r: nat,
    rg: nat,
    ws1: nat,
    ws2: nat,
    ws: nat,
    wsCnt: nat,
    rCnt: nat,
    rdDat: T,
    // memory, and what went in and came out
    ram: seq<T>,
    accepted: seq<T>,
    delivered: seq<T>)

  /** A clock edge, or both clocks at once.  When they coincide, each domain captures the
      other one's Gray pointer either before or after it changes. */
  datatype Event<T> =
    | WriteEdge(wrEn: bool, wrDat: T)
    | ReadEdge(rdEn: bool)
    | BothEdges(wrEn: bool, wrDat: T, rdEn: bool, newW: bool, newR: bool)

  predicate Full<T>(f: Fifo<T>) { f.w + 1 == f.rs + f.depth }

  predicate Empty<T>(f: Fifo<T>) { f.r == f.ws }

  /** The memory location addressed for reading: one behind the next word, starting at the
      last location. */
  function ReadAddress<T>(f: Fifo<T>): (a: nat)
    requires f.depth >= 2
    ensures a < f.depth
  {
    if f.r == 0 then f.depth - 1 else Wrap(f.r - 1, f.depth)
  }

  function WriteAddress<T>(f: Fifo<T>): (a: nat)
    requires f.depth >= 2
    ensures a < f.depth
  {
    if f.w == 0 then f.depth - 1 else Wrap(f.w - 1, f.depth)
  }

  function OnWrite<T>(f: Fifo<T>, en: bool, dat: T, seen: nat): Fifo<T>
    requires f.depth >= 2 && |f.ram| == f.depth
  {
    var take := en && !Full(f);
    f.(w := if take then f.w + 1 else f.w,
       wg := f.w,
       rs1 := seen, rs2 := f.rs1, rs := f.rs2,
       wCnt := f.w, rsCnt := f.rs,
       pend := take, dat1 := dat,
       ram := if f.pend then f.ram[WriteAddress(f) := f.dat1] else f.ram,
       accepted := if take then f.accepted + [dat] else f.accepted)
  }

  function OnRead<T>(f: Fifo<T>, en: bool, seen: nat): Fifo<T>
    requires f.depth >= 2 && |f.ram| == f.depth
  {
    var take := en && !Empty(f);
    var dat := f.ram[ReadAddress(f)];
    f.(r := if take then f.r + 1 else f.r,
       rg := f.r,
       ws1 := seen, ws2 := f.ws1, ws := f.ws2,
       wsCnt := f.ws, rCnt := f.r,
       rdDat := dat,
       // a word leaves on the edge that follows its accepted read
       delivered := if f.r > |f.delivered| then f.delivered + [dat] else f.delivered)
  }

  function Step<T>(f: Fifo<T>, e: Event<T>): Fifo<T>
    requires f.depth >= 2 && |f.ram| == f.depth
  {
    match e
    case WriteEdge(en, dat) => OnWrite(f, en, dat, f.rg)
    case ReadEdge(en) => OnRead(f, en, f.wg)
    case BothEdges(wrEn, wrDat, rdEn, newW, newR) =>
      // both processes read the registers as they were before the edge
      var a := OnWrite(f, wrEn, wrDat, if newR then f.r else f.rg);
      var b := OnRead(f, rdEn, if newW then f.w else f.wg);
      a.(r := b.r, rg := b.rg, ws1 := b.ws1, ws2 := b.ws2, ws := b.ws, wsCnt := b.wsCnt, rCnt := b.rCnt,
         rdDat := b.rdDat, delivered := b.delivered)
  }

  /** After reset: everything at rest, nothing in the pipeline. */
  ghost predicate Initial<T>(f: Fifo<T>) {
    && f.depth >= 2 && |f.ram| == f.depth
    && f.w == f.wg == f.rs1 == f.rs2 == f.rs == f.wCnt == f.rsCnt == 0
    && f.r == f.rg == f.ws1 == f.ws2 == f.ws == f.wsCnt == f.rCnt == 0
    && !f.pend && f.accepted == f.delivered == []
  }

  ghost predicate Inv<T>(f: Fifo<T>) {
    Shape(f) && Order(f) && MemoryRight(f) && OutputRight(f)
  }

  predicate Shape<T>(f: Fifo<T>) {
    f.depth >= 2 && |f.ram| == f.depth && |f.accepted| == f.w
  }

  /** The order of the pointers around the ring. */
  predicate Order<T>(f: Fifo<T>) {
    && f.rs <= f.rs2 <= f.rs1 <= f.rg <= f.r <= f.rg + 1
    && f.r <= f.ws <= f.ws2 <= f.ws1 <= f.wg
    && f.w == f.wg + (if f.pend then 1 else 0)
    && f.w + 1 <= f.rs + f.depth
    && f.rsCnt <= f.wCnt && f.wCnt + 1 <= f.rsCnt + f.depth
    && f.rCnt <= f.wsCnt && f.wsCnt + 1 <= f.rCnt + f.depth
  }

  ghost predicate MemoryRight<T>(f: Fifo<T>)
    requires Shape(f) && Order(f)
  {
    && (f.pend ==> f.dat1 == f.accepted[f.w - 1])
    && RamHolds(f.ram, f.accepted, f.wg, f.depth)
  }

  ghost predicate OutputRight<T>(f: Fifo<T>)
    requires Shape(f) && Order(f)
  {
    && |f.delivered| == f.rg
    && f.delivered == f.accepted[..f.rg]
    && (f.rg > 0 ==> f.rdDat == f.accepted[f.rg - 1])
  }

  /** The memory holds the last turn of words written to it. */
  ghost predicate RamHolds<T>(ram: seq<T>, words: seq<T>, n: nat, depth: nat)
    requires depth >= 1 && |ram| == depth && n <= |words|
  {
    forall k :: 0 <= k < n && n < k + depth + 1 ==> Slot(ram, k, depth) == words[k]
  }

  function Slot<T>(ram: seq<T>, k: nat, depth: nat): T
    requires depth >= 1 && |ram| == depth
  {
    ram[Wrap(k, depth)]
  }

  lemma StoreKeepsRam<T>(ram: seq<T>, words: seq<T>, n: nat, depth: nat, dat: T)
    requires depth >= 1 && |ram| == depth && n < |words| && words[n] == dat
    requires RamHolds(ram, words, n, depth)
    ensures RamHolds(ram[Wrap(n, depth) := dat], words, n + 1, depth)
  {
    var ram' := ram[Wrap(n, depth) := dat];
    forall k | 0 <= k < n + 1 && n + 1 < k + depth + 1
      ensures Slot(ram', k, depth) == words[k]
    {
      if k < n {
        WrapDistinct(k, n, depth);
        assert Slot(ram, k, depth) == words[k];
      }
    }
  }

  lemma StepKeepsOrder<T>(f: Fifo<T>, e: Event<T>)
    requires Inv(f)
    ensures Shape(Step(f, e)) && Order(Step(f, e))
  {
  }

  lemma StepKeepsMemory<T>(f: Fifo<T>, e: Event<T>)
    requires Inv(f) && Shape(Step(f, e)) && Order(Step(f, e))
    ensures MemoryRight(Step(f, e))
  {
    hide OutputRight, ReadAddress;
    var t := Step(f, e);
    if !e.ReadEdge? {
      if f.pend {
        StoreKeepsRam(f.ram, f.accepted, f.wg, f.depth, f.dat1);
      }
      forall k | 0 <= k < t.wg && t.wg < k + t.depth + 1
        ensures Slot(t.ram, k, t.depth) == t.accepted[k]
      {
        assert Slot(t.ram, k, t.depth) == f.accepted[k];
      }
    }
  }

  lemma ReadDelivers<T>(f: Fifo<T>)
    requires Inv(f) && f.r > 0
    ensures f.ram[ReadAddress(f)] == f.accepted[f.r - 1]
  {
    assert Slot(f.ram, f.r - 1, f.depth) == f.accepted[f.r - 1];
  }

  /** What a read edge puts out. */
  lemma ReadOutput<T>(f: Fifo<T>)
    requires Inv(f)
    ensures
      var dat := f.ram[ReadAddress(f)];
      && (if f.r > |f.delivered| then f.delivered + [dat] else f.delivered) == f.accepted[..f.r]
      && (f.r > 0 ==> dat == f.accepted[f.r - 1])
  {
    hide RamHolds, Wrap;
    if f.r > 0 {
      ReadDelivers(f);
      PrefixGrows(f.accepted, f.r);
    }
  }

  lemma StepKeepsOutput<T>(f: Fifo<T>, e: Event<T>)
    requires Inv(f) && Shape(Step(f, e)) && Order(Step(f, e))
    ensures OutputRight(Step(f, e))
  {
    hide MemoryRight, RamHolds, Wrap, ReadAddress, WriteAddress;
    var t := Step(f, e);
    assert t.rg <= f.w && t.accepted[..t.rg] == f.accepted[..t.rg];
    if !e.WriteEdge? {
      ReadOutput(f);
      assert t.rg == f.r && t.delivered == f.accepted[..f.r];
    }
  }

  lemma PrefixGrows<T>(s: seq<T>, n: nat)
    requires 0 < n <= |s|
    ensures s[..n] == s[..n - 1] + [s[n - 1]]
  {
  }

  lemma StepKeepsInv<T>(f: Fifo<T>, e: Event<T>)
    requires Inv(f)
    ensures Inv(Step(f, e))
  {
    StepKeepsOrder(f, e);
    StepKeepsMemory(f, e);
    StepKeepsOutput(f, e);
  }

  function Run<T>(f: Fifo<T>, es: seq<Event<T>>): Fifo<T>
    requires f.depth >= 2 && |f.ram| == f.depth
    decreases |es|
  {
    if es == [] then f else Run(Step(f, es[0]), es[1..])
  }

  /** Words accepted and not yet delivered. */
  function Held<T>(f: Fifo<T>): seq<T>
    requires Inv(f)
  {
    f.accepted[f.rg..]
  }

  /** The word an event puts into a FIFO that is not full. */
  function Input<T>(f: Fifo<T>, e: Event<T>): seq<T> {
    if !e.ReadEdge? && e.wrEn && !Full(f) then [e.wrDat] else []
  }

  /** The word an event shows on the output: the read edge after an accepted read does. */
  function Output<T>(f: Fifo<T>, e: Event<T>): seq<T>
    requires f.depth >= 2 && |f.ram| == f.depth
  {
    if !e.WriteEdge? && f.r != f.rg then [Step(f, e).rdDat] else []
  }

  function Inputs<T>(f: Fifo<T>, es: seq<Event<T>>): seq<T>
    requires f.depth >= 2 && |f.ram| == f.depth
    decreases |es|
  {
    if es == [] then [] else Input(f, es[0]) + Inputs(Step(f, es[0]), es[1..])
  }

  function Outputs<T>(f: Fifo<T>, es: seq<Event<T>>): seq<T>
    requires f.depth >= 2 && |f.ram| == f.depth
    decreases |es|
  {
    if es == [] then [] else Output(f, es[0]) + Outputs(Step(f, es[0]), es[1..])
  }

  lemma StepLogs<T>(f: Fifo<T>, e: Event<T>)
    requires Inv(f)
    ensures Step(f, e).accepted == f.accepted + Input(f, e)
    ensures Step(f, e).delivered == f.delivered + Output(f, e)
  {
  }

  /** For every interleaving of the two clocks, what went in is what came out followed by
      what is still inside, in order, nothing lost and nothing repeated. */
  lemma {:induction false} NothingLostNothingRepeated<T>(f: Fifo<T>, es: seq<Event<T>>)
    requires Inv(f)
    ensures Inv(Run(f, es))
    ensures f.accepted + Inputs(f, es) == f.delivered + Outputs(f, es) + Held(Run(f, es))
    decreases |es|
  {
    if es == [] {
      assert f.accepted == f.accepted[..f.rg] + f.accepted[f.rg..];
    } else {
      var t := Step(f, es[0]);
      StepKeepsInv(f, es[0]);
      StepLogs(f, es[0]);
      NothingLostNothingRepeated(t, es[1..]);
      AppendAssociates(f.accepted, Input(f, es[0]), Inputs(t, es[1..]));
      AppendAssociates(f.delivered, Output(f, es[0]), Outputs(t, es[1..]));
    }
  }

  lemma AppendAssociates<T>(a: seq<T>, b: seq<T>, c: seq<T>)
    ensures a + b + c == a + (b + c)
  {
  }

  /** From reset, the words shown are a prefix of the words offered. */
  lemma DeliveredInOrder<T>(f: Fifo<T>, es: seq<Event<T>>)
    requires Initial(f)
    ensures Inv(Run(f, es)) && Inputs(f, es) == Outputs(f, es) + Held(Run(f, es))
    ensures |Held(Run(f, es))| <= f.depth
  {
    NothingLostNothingRepeated(f, es);
    DepthKept(f, es);
    assert f.accepted + Inputs(f, es) == Inputs(f, es);
    assert f.delivered + Outputs(f, es) == Outputs(f, es);
  }

  lemma {:induction false} DepthKept<T>(f: Fifo<T>, es: seq<Event<T>>)
    requires f.depth >= 2 && |f.ram| == f.depth
    ensures Run(f, es).depth == f.depth
    decreases |es|
  {
    if es != [] {
      DepthKept(Step(f, es[0]), es[1..]);
    }
  }

  /** A pending memory write never targets the location addressed for reading. */
  lemma NoSimultaneousAccess<T>(f: Fifo<T>)
    requires Inv(f) && f.pend
    ensures WriteAddress(f) != ReadAddress(f)
  {
    if f.r > 0 {
      WrapDistinct(f.r - 1, f.w - 1, f.depth);
    }
  }

  /** Words inside: accepted and not yet asked for. */
  function Occupancy<T>(f: Fifo<T>): int { f.w - f.r }

  /** Not full means a free slot, not empty means a word that is already in memory. */
  lemma FlagsAreSafe<T>(f: Fifo<T>)
    requires Inv(f)
    ensures !Full(f) ==> Occupancy(f) < f.depth - 1
    ensures !Empty(f) ==> f.r < f.wg && Slot(f.ram, f.r, f.depth) == f.accepted[f.r]
    ensures 0 <= Occupancy(f) <= f.depth - 1
  {
    if !Empty(f) {
      assert f.wg < f.r + f.depth + 1;
    }
  }

  /** The two occupancy outputs, from the registered pointers. */
  function WrCnt<T>(f: Fifo<T>): int { f.wCnt - f.rsCnt }

  function RdCnt<T>(f: Fifo<T>): int { f.wsCnt - f.rCnt }

  /** wr_cnt never reports fewer words than there were just before the last write edge,
      rd_cnt never more than just before the last read edge; both stay below the depth, so
      that computing them modulo the depth loses nothing. */
  lemma CountsAreSafe<T>(f: Fifo<T>, e: Event<T>)
    requires Inv(f)
    ensures !e.ReadEdge? ==> Occupancy(f) <= WrCnt(Step(f, e)) < f.depth
    ensures !e.WriteEdge? ==> 0 <= RdCnt(Step(f, e)) <= Occupancy(f)
  {
  }

  /** What each domain believes about the other only moves forward, and never runs ahead. */
  lemma SynchronisedPointersAreMonotone<T>(f: Fifo<T>, e: Event<T>)
    requires Inv(f)
    ensures f.rs <= Step(f, e).rs <= Step(f, e).r && f.ws <= Step(f, e).ws <= Step(f, e).w
  {
    StepKeepsOrder(f, e);
  }

  predicate NoWriteTaken<T>(f: Fifo<T>, e: Event<T>) {
    e.ReadEdge? || !e.wrEn || Full(f)
  }

  /** No write is taken over the whole run. */
  predicate Quiet<T>(f: Fifo<T>, es: seq<Event<T>>)
    requires f.depth >= 2 && |f.ram| == f.depth
    decreases |es|
  {
    es == [] || (NoWriteTaken(f, es[0]) && Quiet(Step(f, es[0]), es[1..]))
  }

  function ReadEdges<T>(es: seq<Event<T>>): nat {
    if es == [] then 0 else (if es[0].WriteEdge? then 0 else 1) + ReadEdges(es[1..])
  }

  /** How many of the three stages between the write pointer and rd_empty are up to date. */
  predicate StagesUpToDate<T>(f: Fifo<T>, n: nat) {
    && f.wg == f.w
    && (n >= 1 ==> f.ws1 == f.w) && (n >= 2 ==> f.ws2 == f.w) && (n >= 3 ==> f.ws == f.w)
  }

  lemma {:induction false} PointerPropagates<T>(f: Fifo<T>, es: seq<Event<T>>, n: nat)
    requires Inv(f) && StagesUpToDate(f, n) && Quiet(f, es)
    ensures Inv(Run(f, es)) && StagesUpToDate(Run(f, es), n + ReadEdges(es))
    decreases |es|
  {
    if es != [] {
      StepKeepsInv(f, es[0]);
      var n' := if es[0].WriteEdge? then n else n + 1;
      assert StagesUpToDate(Step(f, es[0]), n');
      PointerPropagates(Step(f, es[0]), es[1..], n');
    }
  }

  /** Once writes stop, one write edge and then three read edges make rd_empty exact. */
  lemma EmptyBecomesExact<T>(f: Fifo<T>, first: Event<T>, es: seq<Event<T>>)
    requires Inv(f) && first.WriteEdge? && NoWriteTaken(f, first)
    requires Quiet(Step(f, first), es) && ReadEdges(es) >= 3
    ensures
      var t := Run(Step(f, first), es);
      Inv(t) && (Empty(t) <==> Occupancy(t) == 0)
  {
    StepKeepsInv(f, first);
    PointerPropagates(Step(f, first), es, 0);
  }

  // ---------------------------------------------------------------------------
  // The other side, and progress
  // ---------------------------------------------------------------------------

  predicate NoReadTaken<T>(f: Fifo<T>, e: Event<T>) {
    e.WriteEdge? || !e.rdEn || Empty(f)
  }

  predicate QuietReads<T>(f: Fifo<T>, es: seq<Event<T>>)
    requires f.depth >= 2 && |f.ram| == f.depth
    decreases |es|
  {
    es == [] || (NoReadTaken(f, es[0]) && QuietReads(Step(f, es[0]), es[1..]))
  }

  function WriteEdges<T>(es: seq<Event<T>>): nat {
    if es == [] then 0 else (if es[0].ReadEdge? then 0 else 1) + WriteEdges(es[1..])
  }

  /** How many of the three stages between the read pointer and wr_full are up to date. */
  predicate ReadsUpToDate<T>(f: Fifo<T>, n: nat) {
    && f.rg == f.r
    && (n >= 1 ==> f.rs1 == f.r) && (n >= 2 ==> f.rs2 == f.r) && (n >= 3 ==> f.rs == f.r)
  }

  lemma {:induction false} ReadPointerPropagates<T>(f: Fifo<T>, es: seq<Event<T>>, n: nat)
    requires Inv(f) && ReadsUpToDate(f, n) && QuietReads(f, es)
    ensures Inv(Run(f, es)) && ReadsUpToDate(Run(f, es), n + WriteEdges(es))
    decreases |es|
  {
    if es != [] {
      StepKeepsInv(f, es[0]);
      var n' := if es[0].ReadEdge? then n else n + 1;
      assert ReadsUpToDate(Step(f, es[0]), n');
      ReadPointerPropagates(Step(f, es[0]), es[1..], n');
    }
  }

  /** Once reads stop, one read edge and then three write edges make wr_full exact. */
  lemma FullBecomesExact<T>(f: Fifo<T>, first: Event<T>, es: seq<Event<T>>)
    requires Inv(f) && first.ReadEdge? && NoReadTaken(f, first)
    requires QuietReads(Step(f, first), es) && WriteEdges(es) >= 3
    ensures
      var t := Run(Step(f, first), es);
      Inv(t) && (Full(t) <==> Occupancy(t) == t.depth - 1)
  {
    StepKeepsInv(f, first);
    ReadPointerPropagates(Step(f, first), es, 0);
  }

  predicate WritesIn<T>(e: Event<T>) { !e.ReadEdge? && e.wrEn }

  predicate ReadsIn<T>(e: Event<T>) { !e.WriteEdge? && e.rdEn }

  /** At every edge, also when both clocks tick at once: a word is taken in exactly when it is
      written with `wr_full` low, and taken out exactly when it is read with `rd_empty` low. */
  lemma TakenExactly<T>(f: Fifo<T>, e: Event<T>)
    requires Inv(f)
    ensures
      var t := Step(f, e);
      && t.w == f.w + (if WritesIn(e) && !Full(f) then 1 else 0)
      && t.r == f.r + (if ReadsIn(e) && !Empty(f) then 1 else 0)
      && t.accepted == f.accepted + (if t.w == f.w then [] else [e.wrDat])
      && (!e.WriteEdge? ==> |t.delivered| == f.r) && (e.WriteEdge? ==> t.delivered == f.delivered)
  {
    hide MemoryRight, ReadAddress, WriteAddress, Wrap;
  }

  function Reading<T>(n: nat): seq<Event<T>> {
    if n == 0 then [] else [ReadEdge(true)] + Reading(n - 1)
  }

  /** Read edges until every word is out: those that the synchronisers need, one for each
      word, and one for the output register. */
  function EdgesNeeded<T>(f: Fifo<T>): int {
    (f.w - f.r) + (if f.ws == f.w then 0 else if f.ws2 == f.w then 1 else if f.ws1 == f.w then 2 else 3) + 1
  }

  lemma EdgeBringsNearer<T>(f: Fifo<T>)
    requires Inv(f) && f.wg == f.w && f.r < f.w
    ensures
      var t := Step(f, ReadEdge(true));
      t.wg == t.w == f.w && t.accepted == f.accepted && EdgesNeeded(t) <= EdgesNeeded(f) - 1
  {
    hide MemoryRight, OutputRight, Wrap;
  }

  lemma LastEdge<T>(f: Fifo<T>)
    requires Inv(f) && f.wg == f.w == f.r
    ensures var t := Step(f, ReadEdge(true)); t.rg == t.r == t.w == t.wg == f.w && t.accepted == f.accepted
  {
    hide MemoryRight, OutputRight, ReadAddress, Wrap;
  }

  lemma FirstOfReading<T>(f: Fifo<T>, n: nat)
    requires Inv(f) && n > 0
    ensures Run(f, Reading(n)) == Run(Step(f, ReadEdge(true)), Reading(n - 1)) && Inv(Step(f, ReadEdge(true)))
  {
    hide MemoryRight, OutputRight, Order, Step;
    StepKeepsInv(f, ReadEdge(true));
    assert Reading<T>(n)[1..] == Reading(n - 1);
  }

  lemma {:induction false} ReadingDrains<T>(f: Fifo<T>, n: nat)
    requires Inv(f) && f.wg == f.w && n >= EdgesNeeded(f)
    ensures Inv(Run(f, Reading(n))) && Run(f, Reading(n)).delivered == f.accepted
    decreases n
  {
    hide MemoryRight, OutputRight, Step, Run;
    FirstOfReading(f, n);
    if f.r == f.w {
      LastEdge(f);
      StaysDrained(Step(f, ReadEdge(true)), n - 1);
    } else {
      EdgeBringsNearer(f);
      hide EdgesNeeded, Order;
      ReadingDrains(Step(f, ReadEdge(true)), n - 1);
    }
  }

  /** With every word out, reading changes nothing. */
  lemma {:induction false} StaysDrained<T>(f: Fifo<T>, n: nat)
    requires Inv(f) && f.rg == f.r == f.w == f.wg
    ensures Inv(Run(f, Reading(n))) && Run(f, Reading(n)).delivered == f.accepted
    decreases n
  {
    hide MemoryRight, Step;
    assert f.accepted[..f.w] == f.accepted;
    if n > 0 {
      FirstOfReading(f, n);
      LastEdge(f);
      StaysDrained(Step(f, ReadEdge(true)), n - 1);
    }
  }

  /** Whatever has been accepted comes out: after one write edge without a write, as many
      read edges as there are words, and four more. */
  lemma EverythingDrains<T>(f: Fifo<T>, x: T, n: nat)
    requires Inv(f) && n >= f.w - f.r + 4
    ensures Run(Step(f, WriteEdge(false, x)), Reading(n)).delivered == f.accepted
  {
    StepKeepsInv(f, WriteEdge(false, x));
    ReadingDrains(Step(f, WriteEdge(false, x)), n);
  }
}
