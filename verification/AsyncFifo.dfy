/** The entity fifo_a: registers, Gray-coded pointers, synchronisers and memory.

    The class starts in the state the reset leaves, with the write enable held low while
    the reset was active. */
module AsyncFifo {
  import opened Gray
  import opened AsyncFifoModel
  import opened Modular

  /** Pointers are one bit wider than an address: equal low bits and different top bits
      mean one whole turn apart. */
  predicate TurnApart(wr: nat, rd: nat, depth: nat)
    requires wr < 2 * depth && rd < 2 * depth
  {
    Address(wr, depth) == Address(rd, depth) && (wr < depth <==> rd >= depth)
  }

  function MinusOne(v: nat, m: nat): (r: nat)
    requires v < m
    ensures r < m
  {
    if v == 0 then m - 1 else v - 1
  }

  /** The read pointer register starts at minus one. */
  function OneBehind(count: nat, m: nat): (v: nat)
    requires m >= 1
    ensures v < m
  {
    Wrap(count + m - 1, m)
  }

  /** The write pointer, from the read pointer that many counts behind it. */
  lemma WriteFromRead(w: nat, r: nat, m: nat)
    requires m >= 2 && r <= w && w < r + m
    ensures
      var y := OneBehind(r, m);
      Wrap(w, m) == if y + (w - r + 1) < m then y + (w - r + 1) else y + (w - r + 1) - m
  {
    WrapAdvance(r + m - 1, w - r + 1, m);
    assert Wrap(w + m, m) == Wrap(w, m);
  }

  /** wr_full is exact about the synchronised read pointer. */
  lemma FullFlagExact(w: nat, rs: nat, depth: nat)
    requires depth >= 2 && rs <= w && w + 1 <= rs + depth
    ensures TurnApart(Wrap(w, 2 * depth), OneBehind(rs, 2 * depth), depth) <==> w + 1 == rs + depth
  {
    WriteFromRead(w, rs, 2 * depth);
  }

  /** rd_empty and rd_aempty are exact about the synchronised write pointer. */
  lemma EmptyFlagsExact(r: nat, ws: nat, depth: nat)
    requires depth >= 4 && r <= ws <= r + depth
    ensures
      var m := 2 * depth;
      && (OneBehind(r, m) == MinusOne(Wrap(ws, m), m) <==> ws == r)
      && (OneBehind(r, m) == MinusOne(MinusOne(Wrap(ws, m), m), m) <==> ws == r + 1)
  {
    WriteFromRead(ws, r, 2 * depth);
  }

  /** The comparison behind wr_afull: low bits against the decremented read pointer, top
      bit against the read pointer itself. */
  predicate AlmostFullFlag(wr: nat, rd: nat, depth: nat)
    requires wr < 2 * depth && rd < 2 * depth
  {
    Address(wr, depth) == Address(MinusOne(rd, 2 * depth), depth) && (wr < depth <==> rd >= depth)
  }

  /** wr_afull tells that one free slot is left except when the low bits of the
      synchronised read pointer are all zero: then the flag stays low. */
  lemma AlmostFullFlagExact(w: nat, rs: nat, depth: nat)
    requires depth >= 4 && rs <= w && w + 1 <= rs + depth
    ensures
      var rd := OneBehind(rs, 2 * depth);
      AlmostFullFlag(Wrap(w, 2 * depth), rd, depth) <==> w + 2 == rs + depth && Address(rd, depth) != 0
  {
    WriteFromRead(w, rs, 2 * depth);
  }

  /** Seven writes and one read, with time for the read to be seen. */
  function SevenWritesOneRead<T>(x: T): seq<Event<T>> {
    var write, read := WriteEdge(true, x), ReadEdge(false);
    [write, write, read, read, read, ReadEdge(true), read, write, write, write, write, write]
  }

  /** The counts that decide the flags and how far they have come. */
  predicate Counts<T>(f: Fifo<T>, w: nat, rs: nat, rs1: nat, r: nat, ws: nat) {
    && f.depth == 8 == |f.ram| && f.w == w && f.rs == rs && f.rs2 == rs && f.rs1 == rs1
    && f.r == r && f.rg == r && f.ws == ws && f.ws2 == ws
  }

  lemma TwoWritesOneRead<T>(f: Fifo<T>, x: T)
    requires Initial(f) && f.depth == 8
    ensures Counts(Run(f, SevenWritesOneRead(x)[..7]), 2, 0, 0, 1, 1)
  {
    hide Wrap;
    var write, read := WriteEdge(true, x), ReadEdge(false);
    var f2 := Step(Step(f, write), write);
    assert f2.w == 2 && f2.wg == 1 && f2.ws == f2.r == 0;
    var f5 := Step(Step(Step(f2, read), read), read);
    assert f5.ws == f5.ws2 == 1 && f5.r == f5.rg == 0;
    var es := SevenWritesOneRead(x)[..7];
    assert es == [write, write, read, read, read, ReadEdge(true), read];
    RunTwo(f, es);
    assert es[2..] == [read, read, read, ReadEdge(true), read];
    RunTwo(f2, es[2..]);
    assert es[2..][2..] == [read, ReadEdge(true), read];
    RunTwo(Step(Step(f2, read), read), es[2..][2..]);
    assert es[2..][2..][2..] == [read];
    assert Run(f, es) == Step(Step(f5, ReadEdge(true)), read);
  }

  lemma RunTwo<T>(f: Fifo<T>, es: seq<Event<T>>)
    requires f.depth >= 2 && |f.ram| == f.depth && |es| >= 2
    ensures Run(f, es) == Run(Step(Step(f, es[0]), es[1]), es[2..])
  {
    assert es[1..][1..] == es[2..];
  }

  lemma {:induction false} RunJoin<T>(f: Fifo<T>, a: seq<Event<T>>, b: seq<Event<T>>)
    requires f.depth >= 2 && |f.ram| == f.depth
    ensures Run(f, a).depth >= 2 && |Run(f, a).ram| == Run(f, a).depth
    ensures Run(f, a + b) == Run(Run(f, a), b)
    decreases |a|
  {
    if a == [] {
      assert a + b == b;
    } else {
      assert (a + b)[1..] == a[1..] + b;
      RunJoin(Step(f, a[0]), a[1..], b);
    }
  }

  lemma FiveWrites<T>(f: Fifo<T>, x: T)
    requires Counts(f, 2, 0, 0, 1, 1)
    ensures
      var write := WriteEdge(true, x);
      var t := Run(f, [write, write, write, write, write]);
      && t.depth == 8 && t.w == 7 && t.rs == 1 && t.r == 1
  {
    hide Wrap;
    var write := WriteEdge(true, x);
    var es := [write, write, write, write, write];
    var f2 := Step(Step(f, write), write);
    assert f2.w == 4 && f2.rs1 == f2.rs2 == 1 && f2.rs == 0 && f2.rg == f2.r == 1;
    RunTwo(f, es);
    assert es[2..] == [write, write, write];
    RunTwo(f2, es[2..]);
    assert es[2..][2..] == [write];
    var f4 := Step(Step(f2, write), write);
    assert f4.w == 6 && f4.rs == 1;
    assert Run(f4, [write]) == Step(f4, write);
  }

  /** A FIFO of depth 8 comes, from reset, to have one free slot and no wr_afull, and after
      one more write it is full. */
  lemma AlmostFullMissed<T>(f: Fifo<T>, x: T)
    requires Initial(f) && f.depth == 8
    ensures
      var t := Run(f, SevenWritesOneRead(x));
      && Inv(t) && t.depth == 8 && Occupancy(t) == 6 && t.w + 2 == t.rs + t.depth
      && !AlmostFullFlag(Wrap(t.w, 16), OneBehind(t.rs, 16), 8)
      && Full(Step(t, WriteEdge(true, x)))
  {
    hide Run;
    var es := SevenWritesOneRead(x);
    NothingLostNothingRepeated(f, es);
    TwoWritesOneRead(f, x);
    FiveWrites(Run(f, es[..7]), x);
    RunJoin(f, es[..7], es[7..]);
    assert es == es[..7] + es[7..];
    assert OneBehind(1, 16) == 0;
  }

  /** Occupancy outputs: a difference of registered low bits, minus one for the offset
      between the two pointers, on as many bits as an address. */
  function CountOutput(wr: nat, rd: nat, depth: nat): (n: nat)
    requires wr < depth && rd < depth
    ensures n < depth
  {
    if wr > rd then wr - rd - 1 else wr - rd - 1 + depth
  }

  lemma CountOutputExact(w: nat, r: nat, depth: nat)
    requires depth >= 2 && r <= w && w < r + depth
    ensures CountOutput(Wrap(w, depth), OneBehind(r, depth), depth) == w - r
  {
    WriteFromRead(w, r, depth);
  }

  lemma AddressOfCount(count: nat, depth: nat)
    requires depth >= 2
    ensures Address(Wrap(count, 2 * depth), depth) == Wrap(count, depth)
    ensures Address(OneBehind(count, 2 * depth), depth) == OneBehind(count, depth)
  {
    WrapHalf(count, depth);
    WrapHalf(count + 2 * depth - 1, depth);
    assert Wrap(count + 2 * depth - 1, depth) == Wrap(count + depth - 1, depth);
  }

  lemma ReadAddressBits<T>(f: Fifo<T>)
    requires f.depth >= 2
    ensures OneBehind(f.r, f.depth) == ReadAddress(f)
  {
    if f.r > 0 {
      assert Wrap(f.r - 1 + f.depth, f.depth) == Wrap(f.r - 1, f.depth);
    }
  }

  /** Registers clocked by wr_clk, and the generic that sizes them. */
  datatype WriteRegs<T> = WriteRegs(
    dat1: T, ptr: nat, enS1: bool, bptrA: nat, gptrA: Bits,
    rdGptrS1: Bits, rdGptrS2: Bits, rdBptrS: nat, bptrA1: nat, rdBptrS1: nat)

  /** Registers clocked by rd_clk. */
  datatype ReadRegs<T> = ReadRegs(
    dat: T, bptrA: nat, gptrA: Bits,
    wrGptrS1: Bits, wrGptrS2: Bits, wrBptrS: nat, wrBptrS1: nat, bptrA1: nat)

  /** What the registers hold when the counters are those of `f`. */
  ghost function WriteImage<T>(n: nat, f: Fifo<T>): WriteRegs<T>
    requires f.depth >= 2
  {
    var m := 2 * f.depth;
    WriteRegs(f.dat1, Wrap(f.wg, f.depth), f.pend, Wrap(f.w, m), Code(n, f.wg),
              Code(n, f.rs1 + m - 1), Code(n, f.rs2 + m - 1), OneBehind(f.rs, m),
              Wrap(f.wCnt, f.depth), OneBehind(f.rsCnt, f.depth))
  }

  ghost function ReadImage<T>(n: nat, f: Fifo<T>): ReadRegs<T>
    requires f.depth >= 2
  {
    var m := 2 * f.depth;
    ReadRegs(f.rdDat, OneBehind(f.r, m), Code(n, f.rg + m - 1),
             Code(n, f.ws1), Code(n, f.ws2), Wrap(f.ws, m),
             Wrap(f.wsCnt, f.depth), OneBehind(f.rCnt, f.depth))
  }

  predicate WriteTaken<T>(q: WriteRegs<T>, wrEn: bool, depth: nat)
    requires q.bptrA < 2 * depth && q.rdBptrS < 2 * depth
  {
    wrEn && !TurnApart(q.bptrA, q.rdBptrS, depth)
  }

  predicate ReadTaken<T>(q: ReadRegs<T>, rdEn: bool, depth: nat)
    requires depth >= 1 && q.wrBptrS < 2 * depth
  {
    rdEn && q.bptrA != MinusOne(q.wrBptrS, 2 * depth)
  }

  /** Register transfers of the processes clocked by wr_clk. */
  function NextWrite<T>(n: nat, q: WriteRegs<T>, wrEn: bool, wrDat: T, sampled: Bits, depth: nat): WriteRegs<T>
    requires 2 * depth == Pow2(n) && q.bptrA < 2 * depth && q.rdBptrS < 2 * depth
  {
    WriteRegs(wrDat, Address(q.bptrA, depth), WriteTaken(q, wrEn, depth),
              if WriteTaken(q, wrEn, depth) then PlusOne(q.bptrA, 2 * depth) else q.bptrA,
              BinToGray(ToBits(n, q.bptrA)),
              sampled, q.rdGptrS1, Decode(q.rdGptrS2),
              Address(q.bptrA, depth), Address(q.rdBptrS, depth))
  }

  /** Register transfers of the processes clocked by rd_clk. */
  function NextRead<T>(n: nat, q: ReadRegs<T>, rdEn: bool, ram: seq<T>, sampled: Bits, depth: nat): ReadRegs<T>
    requires 2 * depth == Pow2(n) && q.bptrA < 2 * depth && q.wrBptrS < 2 * depth && |ram| == depth
  {
    ReadRegs(ram[Address(q.bptrA, depth)],
             if ReadTaken(q, rdEn, depth) then PlusOne(q.bptrA, 2 * depth) else q.bptrA,
             BinToGray(ToBits(n, q.bptrA)),
             sampled, q.wrGptrS1, Decode(q.wrGptrS2),
             Address(q.wrBptrS, depth), Address(q.bptrA, depth))
  }

  predicate Sized(n: nat, depth: nat) {
    depth >= 8 && 2 * depth == Pow2(n)
  }

  lemma WriteGate<T>(n: nat, f: Fifo<T>, wrEn: bool)
    requires Sized(n, f.depth) && Order(f)
    ensures WriteTaken(WriteImage(n, f), wrEn, f.depth) == (wrEn && !Full(f))
  {
    hide Wrap, Code, Pow2;
    FullFlagExact(f.w, f.rs, f.depth);
  }

  lemma ReadGate<T>(n: nat, f: Fifo<T>, rdEn: bool)
    requires Sized(n, f.depth) && Order(f)
    ensures ReadTaken(ReadImage(n, f), rdEn, f.depth) == (rdEn && !Empty(f))
  {
    hide Wrap, Code, Pow2;
    EmptyFlagsExact(f.r, f.ws, f.depth);
  }

  lemma PointersAdvance(w: nat, r: nat, m: nat)
    requires m >= 2
    ensures PlusOne(Wrap(w, m), m) == Wrap(w + 1, m)
    ensures PlusOne(OneBehind(r, m), m) == OneBehind(r + 1, m)
  {
    WrapAdvance(w, 1, m);
    WrapAdvance(r + m - 1, 1, m);
  }

  /** The converters: binary to Gray for the other domain, Gray to binary on arrival. */
  lemma Converters(n: nat, depth: nat, own: nat, other: nat)
    requires Sized(n, depth)
    ensures BinToGray(ToBits(n, Wrap(own, 2 * depth))) == Code(n, own)
    ensures Decode(Code(n, other)) == Wrap(other, 2 * depth)
  {
    DecodeWraps(n, other);
  }

  lemma WriteRegsStep<T>(n: nat, f: Fifo<T>, wrEn: bool, wrDat: T, seen: nat)
    requires Sized(n, f.depth) && Shape(f) && Order(f)
    ensures NextWrite(n, WriteImage(n, f), wrEn, wrDat, Code(n, seen + 2 * f.depth - 1), f.depth)
         == WriteImage(n, OnWrite(f, wrEn, wrDat, seen))
  {
    hide Wrap, Code, Decode, BinToGray, ToBits, WriteTaken, PlusOne, Address, Pow2;
    WriteGate(n, f, wrEn);
    PointersAdvance(f.w, f.r, 2 * f.depth);
    AddressOfCount(f.w, f.depth);
    AddressOfCount(f.rs, f.depth);
    Converters(n, f.depth, f.w, f.rs2 + 2 * f.depth - 1);
  }

  lemma ReadRegsStep<T>(n: nat, f: Fifo<T>, rdEn: bool, seen: nat)
    requires Sized(n, f.depth) && Shape(f) && Order(f)
    ensures NextRead(n, ReadImage(n, f), rdEn, f.ram, Code(n, seen), f.depth)
         == ReadImage(n, OnRead(f, rdEn, seen))
  {
    hide Wrap, Code, Decode, BinToGray, ToBits, ReadTaken, PlusOne, Address, Pow2;
    ReadGate(n, f, rdEn);
    PointersAdvance(f.w, f.r, 2 * f.depth);
    ReadAddressBits(f);
    AddressOfCount(f.r, f.depth);
    AddressOfCount(f.ws, f.depth);
    Converters(n, f.depth, f.r + 2 * f.depth - 1, f.ws2);
  }

  lemma InvParts<T>(f: Fifo<T>)
    requires Inv(f)
    ensures Shape(f) && Order(f)
  {
  }

  lemma RamStep<T>(n: nat, f: Fifo<T>, wrEn: bool, wrDat: T, seen: nat)
    requires Sized(n, f.depth) && Shape(f) && Order(f)
    ensures
      var q := WriteImage(n, f);
      q.ptr < |f.ram| && OnWrite(f, wrEn, wrDat, seen).ram == if q.enS1 then f.ram[q.ptr := q.dat1] else f.ram
  {
  }

  /** With coincident edges each domain still makes its own step. */
  lemma ImagesOfBoth<T>(n: nat, f: Fifo<T>, wrEn: bool, wrDat: T, rdEn: bool, newW: bool, newR: bool)
    requires Sized(n, f.depth) && Shape(f)
    ensures
      var t := Step(f, BothEdges(wrEn, wrDat, rdEn, newW, newR));
      var a := OnWrite(f, wrEn, wrDat, if newR then f.r else f.rg);
      var b := OnRead(f, rdEn, if newW then f.w else f.wg);
      && t.depth == f.depth && t.ram == a.ram
      && WriteImage(n, t) == WriteImage(n, a) && ReadImage(n, t) == ReadImage(n, b)
  {
    hide Wrap, Code, OneBehind;
  }

  class Device<T(0)> {
    const width: nat       // of a pointer, one more than an address
    const depth: nat
    const dpram: array<T>
    // write clock domain
    var wrDat1: T
    var wrPtr: nat
    var wrEnS1: bool
    var wrBptrA: nat
    var wrGptrA: Bits
    var wrRdGptrS1: Bits
    var wrRdGptrS2: Bits
    var wrRdBptrS: nat
    var wrBptrA1: nat
    var wrRdBptrS1: nat
    // read clock domain
    var rdDat: T
    var rdBptrA: nat
    var rdGptrA: Bits
    var rdWrGptrS1: Bits
    var rdWrGptrS2: Bits
    var rdWrBptrS: nat
    var rdWrBptrS1: nat
    var rdBptrA1: nat

    ghost var model: Fifo<T>

    ghost function WrRegs(): WriteRegs<T>
      reads this
    {
      WriteRegs(wrDat1, wrPtr, wrEnS1, wrBptrA, wrGptrA, wrRdGptrS1, wrRdGptrS2, wrRdBptrS, wrBptrA1, wrRdBptrS1)
    }

    ghost function RdRegs(): ReadRegs<T>
      reads this
    {
      ReadRegs(rdDat, rdBptrA, rdGptrA, rdWrGptrS1, rdWrGptrS2, rdWrBptrS, rdWrBptrS1, rdBptrA1)
    }

    /** The registers are the image of counters that satisfy the invariant. */
    ghost predicate Valid()
      reads this, dpram
    {
      && Sized(width, depth) && dpram.Length == depth == model.depth
      && Inv(model) && dpram[..] == model.ram
      && WrRegs() == WriteImage(width, model) && RdRegs() == ReadImage(width, model)
    }

    constructor (addressWidth: nat)
      requires addressWidth >= 3
      ensures Valid() && Initial(model) && depth == Pow2(addressWidth)
      ensures fresh(dpram)
    {
      hide Pow2, WriteImage, ReadImage, BinToGray, ToBits, Inv;
      var d := Pow2(addressWidth);
      var n := addressWidth + 1;
      ResetSize(addressWidth);
      width, depth := n, d;
      var ram := new T[d];
      dpram := ram;
      var dat: T := *;
      var out: T := *;
      ghost var f := Fifo(d, 0, 0, 0, 0, 0, 0, 0, false, dat, 0, 0, 0, 0, 0, 0, 0, out, ram[..], [], []);
      InitialInv(f);
      ResetImage(n, f);
      var zero, minusOne := BinToGray(ToBits(n, 0)), BinToGray(ToBits(n, 2 * d - 1));
      wrDat1, wrPtr, wrEnS1, wrBptrA, wrGptrA := dat, 0, false, 0, zero;
      wrRdGptrS1, wrRdGptrS2, wrRdBptrS, wrBptrA1, wrRdBptrS1 := minusOne, minusOne, 2 * d - 1, 0, d - 1;
      rdDat, rdBptrA, rdGptrA := out, 2 * d - 1, minusOne;
      rdWrGptrS1, rdWrGptrS2, rdWrBptrS, rdWrBptrS1, rdBptrA1 := zero, zero, 0, 0, d - 1;
      model := f;
    }

    predicate WrFull()
      requires Valid()
      reads this, dpram
      ensures WrFull() <==> Full(model)
    {
      FullFlagExact(model.w, model.rs, depth);
      TurnApart(wrBptrA, wrRdBptrS, depth)
    }

    predicate RdEmpty()
      requires Valid()
      reads this, dpram
      ensures RdEmpty() <==> Empty(model)
    {
      EmptyFlagsExact(model.r, model.ws, depth);
      rdBptrA == MinusOne(rdWrBptrS, 2 * depth)
    }

    predicate RdAlmostEmpty()
      requires Valid()
      reads this, dpram
      ensures RdAlmostEmpty() <==> model.r + 1 == model.ws
    {
      EmptyFlagsExact(model.r, model.ws, depth);
      rdBptrA == MinusOne(MinusOne(rdWrBptrS, 2 * depth), 2 * depth)
    }

    predicate WrAlmostFull()
      requires Valid()
      reads this, dpram
      ensures WrAlmostFull() <==> model.w + 2 == model.rs + depth && Address(wrRdBptrS, depth) != 0
    {
      AlmostFullFlagExact(model.w, model.rs, depth);
      AlmostFullFlag(wrBptrA, wrRdBptrS, depth)
    }

    function WrCount(): (n: nat)
      requires Valid()
      reads this, dpram
      ensures n == WrCnt(model)
    {
      CountOutputExact(model.wCnt, model.rsCnt, depth);
      CountOutput(wrBptrA1, wrRdBptrS1, depth)
    }

    function RdCount(): (n: nat)
      requires Valid()
      reads this, dpram
      ensures n == RdCnt(model)
    {
      CountOutputExact(model.wsCnt, model.rCnt, depth);
      CountOutput(rdWrBptrS1, rdBptrA1, depth)
    }

    /** The processes clocked by wr_clk. */
    method ClockWriteSide(wrEn: bool, wrDat: T, sampled: Bits)
      requires 2 * depth == Pow2(width) && dpram.Length == depth
      requires wrBptrA < 2 * depth && wrRdBptrS < 2 * depth && wrPtr < depth
      modifies this`wrDat1, this`wrPtr, this`wrEnS1, this`wrBptrA, this`wrGptrA, this`wrRdGptrS1,
               this`wrRdGptrS2, this`wrRdBptrS, this`wrBptrA1, this`wrRdBptrS1, dpram
      ensures WrRegs() == NextWrite(width, old(WrRegs()), wrEn, wrDat, sampled, depth)
      ensures dpram[..] == if old(wrEnS1) then old(dpram[..])[old(wrPtr) := old(wrDat1)] else old(dpram[..])
    {
      hide Pow2, Decode, BinToGray, ToBits, TurnApart, PlusOne, Address;
      var wrEnS := wrEn && !TurnApart(wrBptrA, wrRdBptrS, depth);
      if wrEnS1 {
        dpram[wrPtr] := wrDat1;
      }
      wrRdBptrS1, wrBptrA1 := Address(wrRdBptrS, depth), Address(wrBptrA, depth);
      wrDat1, wrPtr, wrEnS1 := wrDat, Address(wrBptrA, depth), wrEnS;
      wrGptrA := BinToGray(ToBits(width, wrBptrA));
      wrBptrA := if wrEnS then PlusOne(wrBptrA, 2 * depth) else wrBptrA;
      wrRdBptrS := Decode(wrRdGptrS2);
      wrRdGptrS1, wrRdGptrS2 := sampled, wrRdGptrS1;
    }

    /** The processes clocked by rd_clk. */
    method ClockReadSide(rdEn: bool, sampled: Bits)
      requires 2 * depth == Pow2(width) && dpram.Length == depth
      requires rdBptrA < 2 * depth && rdWrBptrS < 2 * depth
      modifies this`rdDat, this`rdBptrA, this`rdGptrA, this`rdWrGptrS1, this`rdWrGptrS2, this`rdWrBptrS,
               this`rdWrBptrS1, this`rdBptrA1
      ensures RdRegs() == NextRead(width, old(RdRegs()), rdEn, dpram[..], sampled, depth)
    {
      hide Pow2, Decode, BinToGray, ToBits, MinusOne, PlusOne, Address;
      var rdEnS := rdEn && rdBptrA != MinusOne(rdWrBptrS, 2 * depth);
      rdDat := dpram[Address(rdBptrA, depth)];
      rdWrBptrS1, rdBptrA1 := Address(rdWrBptrS, depth), Address(rdBptrA, depth);
      rdGptrA := BinToGray(ToBits(width, rdBptrA));
      rdBptrA := if rdEnS then PlusOne(rdBptrA, 2 * depth) else rdBptrA;
      rdWrBptrS := Decode(rdWrGptrS2);
      rdWrGptrS1, rdWrGptrS2 := sampled, rdWrGptrS1;
    }

    /** The write side, in terms of the counters of `f`. */
    method WriteHalf(ghost f: Fifo<T>, wrEn: bool, wrDat: T, sampled: Bits, ghost seen: nat)
      requires Sized(width, depth) && f.depth == depth && dpram.Length == depth && Shape(f) && Order(f)
      requires WrRegs() == WriteImage(width, f) && dpram[..] == f.ram
      requires sampled == Code(width, seen + 2 * depth - 1)
      modifies this`wrDat1, this`wrPtr, this`wrEnS1, this`wrBptrA, this`wrGptrA, this`wrRdGptrS1,
               this`wrRdGptrS2, this`wrRdBptrS, this`wrBptrA1, this`wrRdBptrS1, dpram
      ensures WrRegs() == WriteImage(width, OnWrite(f, wrEn, wrDat, seen))
      ensures dpram[..] == OnWrite(f, wrEn, wrDat, seen).ram
    {
      hide OnWrite, NextWrite, Wrap, Code, Pow2, Order, OneBehind;
      WriteRegsStep(width, f, wrEn, wrDat, seen);
      RamStep(width, f, wrEn, wrDat, seen);
      ClockWriteSide(wrEn, wrDat, sampled);
    }

    /** The read side, in terms of the counters of `f`. */
    method ReadHalf(ghost f: Fifo<T>, rdEn: bool, sampled: Bits, ghost seen: nat)
      requires Sized(width, depth) && f.depth == depth && dpram.Length == depth && Shape(f) && Order(f)
      requires RdRegs() == ReadImage(width, f) && dpram[..] == f.ram
      requires sampled == Code(width, seen)
      modifies this`rdDat, this`rdBptrA, this`rdGptrA, this`rdWrGptrS1, this`rdWrGptrS2, this`rdWrBptrS,
               this`rdWrBptrS1, this`rdBptrA1
      ensures RdRegs() == ReadImage(width, OnRead(f, rdEn, seen))
    {
      hide OnRead, NextRead, Wrap, Code, Pow2, Order, OneBehind;
      ReadRegsStep(width, f, rdEn, seen);
      ClockReadSide(rdEn, sampled);
    }

    method OnWriteEdge(wrEn: bool, wrDat: T)
      requires Valid()
      modifies this, dpram
      ensures Valid() && model == Step(old(model), WriteEdge(wrEn, wrDat))
    {
      hide MemoryRight, OutputRight, Wrap, Code, Pow2, OneBehind;
      StepKeepsInv(model, WriteEdge(wrEn, wrDat));
      ghost var f := model;
      WriteHalf(f, wrEn, wrDat, rdGptrA, f.rg);
      model := Step(f, WriteEdge(wrEn, wrDat));
    }

    method OnReadEdge(rdEn: bool)
      requires Valid()
      modifies this
      ensures Valid() && model == Step(old(model), ReadEdge(rdEn))
    {
      hide MemoryRight, OutputRight, Wrap, Code, Pow2, OneBehind;
      StepKeepsInv(model, ReadEdge(rdEn));
      ghost var f := model;
      ReadHalf(f, rdEn, wrGptrA, f.wg);
      model := Step(f, ReadEdge(rdEn));
    }

    /** Both clocks rise together.  Each sampling register captures, bit by bit, either the
        outgoing or the incoming value of the other domain's Gray pointer. */
    method OnBothEdges(wrEn: bool, wrDat: T, rdEn: bool, captureW: Bits, captureR: Bits)
      returns (ghost newW: bool, ghost newR: bool)
      requires Valid()
      requires MayCapture(captureW, wrGptrA, wrBptrA, width) && MayCapture(captureR, rdGptrA, rdBptrA, width)
      modifies this, dpram
      ensures Valid()
      ensures model == Step(old(model), BothEdges(wrEn, wrDat, rdEn, newW, newR))
    {
      hide MayCapture, Step, OnWrite, OnRead, WriteImage, ReadImage, Order, Shape, Inv, Wrap, Code, Pow2;
      ghost var f := model;
      InvParts(f);
      newW, newR := CaptureResolves(width, f, captureW, captureR);
      StepKeepsInv(f, BothEdges(wrEn, wrDat, rdEn, newW, newR));
      ImagesOfBoth(width, f, wrEn, wrDat, rdEn, newW, newR);
      // the memory is read before the simultaneous write reaches it
      ReadHalf(f, rdEn, captureW, if newW then f.w else f.wg);
      WriteHalf(f, wrEn, wrDat, captureR, if newR then f.r else f.rg);
      model := Step(f, BothEdges(wrEn, wrDat, rdEn, newW, newR));
    }
  }

  /** A sampling register catches the Gray pointer `reg` while it is loaded from the binary
      pointer `bptr`. */
  predicate MayCapture(capture: Bits, reg: Bits, bptr: nat, n: nat) {
    bptr < Pow2(n) && MixOf(capture, reg, BinToGray(ToBits(n, bptr)))
  }

  /** A captured Gray pointer stands for the count before or after the edge. */
  lemma CaptureResolves<T>(n: nat, f: Fifo<T>, captureW: Bits, captureR: Bits) returns (newW: bool, newR: bool)
    requires Sized(n, f.depth) && Order(f)
    requires
      var q, t := WriteImage(n, f), ReadImage(n, f);
      MayCapture(captureW, q.gptrA, q.bptrA, n) && MayCapture(captureR, t.gptrA, t.bptrA, n)
    ensures captureW == Code(n, if newW then f.w else f.wg)
    ensures captureR == Code(n, (if newR then f.r else f.rg) + 2 * f.depth - 1)
  {
    hide Wrap, BinToGray, ToBits, MixOf, Code, Pow2;
    var m := 2 * f.depth;
    Converters(n, f.depth, f.w, 0);
    Converters(n, f.depth, f.r + m - 1, 0);
    assert n > 0 by { WidthPositive(n, f.depth); }
    CaptureIsOldOrNew(n, f.wg, f.w, captureW);
    CaptureIsOldOrNew(n, f.rg + m - 1, f.r + m - 1, captureR);
    newW := captureW != Code(n, f.wg);
    newR := captureR != Code(n, f.rg + m - 1);
  }

  lemma WidthPositive(n: nat, depth: nat)
    requires Sized(n, depth)
    ensures n > 0
  {
  }

  lemma DepthAtLeast8(n: nat)
    requires n >= 3
    ensures Pow2(n) >= 8
    decreases n
  {
    if n > 3 {
      DepthAtLeast8(n - 1);
    }
  }

  lemma ResetSize(addressWidth: nat)
    requires addressWidth >= 3
    ensures Sized(addressWidth + 1, Pow2(addressWidth))
  {
    DepthAtLeast8(addressWidth);
  }

  lemma InitialInv<T>(f: Fifo<T>)
    requires Initial(f)
    ensures Inv(f)
  {
  }

  lemma SmallCounts(depth: nat)
    requires depth >= 2
    ensures Wrap(0, 2 * depth) == 0 && Wrap(2 * depth - 1, 2 * depth) == 2 * depth - 1
    ensures Wrap(0, depth) == 0 && Wrap(depth - 1, depth) == depth - 1
  {
  }

  lemma ResetImage<T>(n: nat, f: Fifo<T>)
    requires Initial(f) && Sized(n, f.depth)
    ensures
      var zero := BinToGray(ToBits(n, 0));
      var minusOne := BinToGray(ToBits(n, 2 * f.depth - 1));
      && WriteImage(n, f) == WriteRegs(f.dat1, 0, false, 0, zero, minusOne, minusOne, 2 * f.depth - 1, 0, f.depth - 1)
      && ReadImage(n, f) == ReadRegs(f.rdDat, 2 * f.depth - 1, minusOne, zero, zero, 0, 0, f.depth - 1)
  {
    hide Code, Pow2, Wrap, BinToGray, ToBits;
    SmallCounts(f.depth);
    Converters(n, f.depth, 0, 0);
    Converters(n, f.depth, 2 * f.depth - 1, 0);
  }
}
