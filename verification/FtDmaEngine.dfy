/** The engine in place: three objects whose registers change on every clock edge. */
module FtDmaEngine {
  import opened FtDma
  import opened FtDmaRuns
  import opened FtDmaTransfer
  import opened FtDmaClosing
  import opened FtDmaTheorems

  class FastTransmitter {
    var state: FtState
    var ebft: bool
    var ebbc: bool
    var ebadrs: bool
    var run0: bool
    var run1: bool
    var fifo: bool
    var mif: bool
    var pauscnt: nat
    var bcnt: nat
    var dacnt: nat
    var macnt: nat
    var maseg: nat
    var daburst: nat
    var sts0: nat
    var sts1: nat
    var daendm2: bool
    var daendm1: bool
    var daendall: bool

    function Registers(): FtRegs
      reads this
    {
      FtRegs(state, ebft, ebbc, ebadrs, run0, run1, fifo, mif, pauscnt, bcnt, dacnt, macnt, maseg, daburst, sts0, sts1,
             daendm2, daendm1, daendall)
    }

    constructor ()
      ensures Registers().state == Iddle && Orderly(Registers()) && !fifo && !mif && !ebbc
    {
      state, ebft, ebbc, ebadrs := Iddle, false, false, false;
      run0, run1, fifo, mif := false, false, false, false;
      pauscnt, bcnt, dacnt, macnt, maseg, daburst, sts0, sts1 := 0, 0, 0, 0, 0, 0, 0, 0;
      daendm2, daendm1, daendall := false, false, false;
    }

    function Bus(): BusRegs
      reads this`state, this`ebft, this`ebbc, this`ebadrs
    {
      BusRegs(state, ebft, ebbc, ebadrs)
    }

    function Runs(): RunRegs
      reads this`run0, this`run1, this`fifo, this`mif
    {
      RunRegs(run0, run1, fifo, mif)
    }

    /** The counters are those of `n`. */
    ghost predicate CountersAre(n: FtRegs)
      reads this`pauscnt, this`bcnt, this`dacnt, this`macnt, this`maseg,
            this`daburst, this`sts0, this`sts1, this`daendm2, this`daendm1, this`daendall
    {
      && pauscnt == n.pauscnt && bcnt == n.bcnt && dacnt == n.dacnt && macnt == n.macnt && maseg == n.maseg
      && daburst == n.daburst && sts0 == n.sts0 && sts1 == n.sts1
      && daendm2 == n.daendm2 && daendm1 == n.daendm1 && daendall == n.daendall
    }

    lemma AllRegisters(n: FtRegs)
      requires CountersAre(n) && Bus() == BusOf(n) && Runs() == RunsOf(n)
      ensures Registers() == n
    {
    }

    lemma FlagsOfRegisters()
      ensures BusOf(Registers()) == Bus() && RunsOf(Registers()) == Runs()
    {
    }

    /** The bus flags and the state. */
    method ClockBus(next: FtState, o: Out)
      modifies this`state, this`ebft, this`ebbc, this`ebadrs
      ensures Bus() == NextBus(old(Bus()), next, o)
    {
      hide Latch;
      state := next;
      ebft := Latch(EbRq in o, ebft, EbEof in o);
      ebbc := Latch(Irq in o, ebbc, IrqEnd in o);
      ebadrs := Latch(BcLd in o, ebadrs, EbDat in o);
    }

    /** The run flags, with the memory type of the descriptor that runs. */
    method ClockRun(fifoSet: bool, mifSet: bool, o: Out)
      modifies this`run0, this`run1, this`fifo, this`mif
      ensures Runs() == NextRuns(old(Runs()), fifoSet, mifSet, o)
    {
      hide Latch;
      run0 := Latch(Init0 in o, run0, DmaDone in o);
      run1 := Latch(Init1 in o, run1, DmaDone in o);
      fifo := Latch(fifoSet, fifo, DmaDone in o);
      mif := Latch(mifSet, mif, DmaDone in o);
    }

    /** The pause, burst, destination and source counters. */
    method ClockCounters(payload: nat, d: Descriptor, o: Out)
      modifies this`pauscnt, this`bcnt, this`dacnt, this`macnt, this`maseg
      ensures pauscnt == if BcLd in o then 0 else if PausEn in o then Inc(old(pauscnt), 16) else old(pauscnt)
      ensures
        bcnt == if BcLd in o then payload
                else if BcEn in o then (if old(bcnt) == 0 then 255 else old(bcnt) - 1)
                else old(bcnt)
      ensures dacnt == if DaClr in o then 0 else if DaEn in o then Inc(old(dacnt), COUNT) else old(dacnt)
      ensures macnt == if MaLd in o then d.source else if MaEn in o then Inc(old(macnt), OFFSET) else old(macnt)
      ensures maseg == if MaLd in o then d.segment else old(maseg)
    {
      hide Inc;
      if BcLd in o {
        bcnt, pauscnt := payload, 0;
      } else {
        if BcEn in o { bcnt := if bcnt == 0 then 255 else bcnt - 1; }
        if PausEn in o { pauscnt := Inc(pauscnt, 16); }
      }
      if DaClr in o { dacnt := 0; } else if DaEn in o { dacnt := Inc(dacnt, COUNT); }
      if MaLd in o { macnt, maseg := d.source, d.segment; } else if MaEn in o { macnt := Inc(macnt, OFFSET); }
    }

    /** The burst address, the status and the end detectors. */
    method ClockEnds(d: Descriptor, o: Out)
      modifies this`daburst, this`sts0, this`sts1, this`daendm2, this`daendm1, this`daendall
      ensures daburst == if DbLd in o then (d.dest + 8 * dacnt) % ADDRESS else old(daburst)
      ensures sts0 == if run0 then dacnt else old(sts0)
      ensures sts1 == if run1 then dacnt else old(sts1)
      ensures daendm2 == Within(dacnt, d.count, 2)
      ensures daendm1 == Within(dacnt, d.count, 1)
      ensures daendall == Within(dacnt, d.count, 0)
    {
      hide Within;
      if DbLd in o { daburst := (d.dest + 8 * dacnt) % ADDRESS; }
      if run0 { sts0 := dacnt; }
      if run1 { sts1 := dacnt; }
      daendm2 := Within(dacnt, d.count, 2);
      daendm1 := Within(dacnt, d.count, 1);
      daendall := Within(dacnt, d.count, 0);
    }

    method ClockNumbers(c: Config, next: FtState, o: Out)
      modifies this`pauscnt, this`bcnt, this`dacnt, this`macnt, this`maseg,
               this`daburst, this`sts0, this`sts1, this`daendm2, this`daendm1, this`daendall
      ensures CountersAre(FtNext(c, old(Registers()), next, o))
    {
      hide Within, Inc, Latch;
      var d := if run0 then c.desc0 else c.desc1;
      ClockEnds(d, o);
      ClockCounters(c.payload, d, o);
    }

    /** One edge: the counters see the flags as they were. */
    method Clock(c: Config, next: FtState, o: Out)
      modifies this
      ensures Registers() == FtNext(c, old(Registers()), next, o)
    {
      hide FtNext, Registers, Bus, Runs, CountersAre, NextBus, NextRuns, BusOf, RunsOf, FifoSet, MifSet;
      ghost var n := FtNext(c, Registers(), next, o);
      FlagsFollow(c, Registers(), next, o);
      FlagsOfRegisters();
      ClockNumbers(c, next, o);
      ClockRun(FifoSet(c, o), MifSet(c, o), o);
      ClockBus(next, o);
      AllRegisters(n);
    }
  }

  datatype BusRegs = BusRegs(state: FtState, ebft: bool, ebbc: bool, ebadrs: bool)

  datatype RunRegs = RunRegs(run0: bool, run1: bool, fifo: bool, mif: bool)

  function BusOf(r: FtRegs): BusRegs { BusRegs(r.state, r.ebft, r.ebbc, r.ebadrs) }

  function RunsOf(r: FtRegs): RunRegs { RunRegs(r.run0, r.run1, r.fifo, r.mif) }

  function NextBus(b: BusRegs, next: FtState, o: Out): BusRegs {
    BusRegs(next, Latch(EbRq in o, b.ebft, EbEof in o), Latch(Irq in o, b.ebbc, IrqEnd in o),
            Latch(BcLd in o, b.ebadrs, EbDat in o))
  }

  predicate FifoSet(c: Config, o: Out) { (Init0 in o && c.desc0.fifo) || (Init1 in o && c.desc1.fifo) }

  predicate MifSet(c: Config, o: Out) { (Init0 in o && c.desc0.mif) || (Init1 in o && c.desc1.mif) }

  function NextRuns(r: RunRegs, fifoSet: bool, mifSet: bool, o: Out): RunRegs {
    RunRegs(Latch(Init0 in o, r.run0, DmaDone in o), Latch(Init1 in o, r.run1, DmaDone in o),
            Latch(fifoSet, r.fifo, DmaDone in o), Latch(mifSet, r.mif, DmaDone in o))
  }

  /** The flags follow from the flags alone. */
  lemma FlagsFollow(c: Config, r: FtRegs, next: FtState, o: Out)
    ensures BusOf(FtNext(c, r, next, o)) == NextBus(BusOf(r), next, o)
    ensures RunsOf(FtNext(c, r, next, o)) == NextRuns(RunsOf(r), FifoSet(c, o), MifSet(c, o), o)
  {
    hide Within, Inc, Latch;
  }

  class SourceMaster {
    var state: MxState
    var ebmx: bool
    var dout: Word

    function Registers(): MxRegs
      reads this
    {
      MxRegs(state, ebmx, dout)
    }

    constructor ()
      ensures Registers().state == MxIddle && SourceHeld(Registers())
    {
      state, ebmx, dout := MxIddle, false, 0;
    }

    /** The edge, given the Fast Transmitter's state before it. */
    method Clock(s: FtState, message: bool, o: Out, i: In)
      modifies this
      ensures Registers() == MxNext(old(Registers()), i, s, message, o)
    {
      hide MxControl, Latch;
      var (next, request, release) := MxControl(state, i, s, message, o);
      ebmx := Latch(request, ebmx, release);
      dout := i.eb2Dat;
      state := next;
    }
  }

  class GoBits {
    var go0: bool
    var rund0: bool
    var done0: bool
    var go1: bool
    var rund1: bool
    var done1: bool

    function Registers(): GoRegs
      reads this
    {
      GoRegs(go0, rund0, done0, go1, rund1, done1)
    }

    constructor ()
      ensures Registers() == GoRegs(false, false, false, false, false, false)
    {
      go0, rund0, done0, go1, rund1, done1 := false, false, false, false, false, false;
    }

    method Clock(run0: bool, run1: bool, i: In)
      modifies this
      ensures Registers() == GoNext(old(Registers()), i, run0, run1)
    {
      hide GoBit, Fell;
      go0 := GoBit(go0, done0, i.writeGo0, i.goValue0);
      go1 := GoBit(go1, done1, i.writeGo1, i.goValue1);
      done0, done1 := Fell(rund0, run0), Fell(rund1, run1);
      rund0, rund1 := run0, run1;
    }
  }

  class Engine {
    const config: Config
    const ft: FastTransmitter
    const mx: SourceMaster
    const go: GoBits
    ghost var log: Log

    ghost function Registers(): System
      reads ft, mx, go
    {
      System(ft.Registers(), mx.Registers(), go.Registers())
    }

    /** After reset. */
    constructor (c: Config)
      ensures config == c && fresh(ft) && fresh(mx) && fresh(go)
      ensures IsIdle(Registers()) && log == EMPTY
    {
      config := c;
      ft := new FastTransmitter();
      mx := new SourceMaster();
      go := new GoBits();
      log := EMPTY;
    }

    /** One clock edge. */
    method Clock(i: In)
      modifies this, ft, mx, go
      ensures Registers() == Cycle(config, old(Registers()), i)
      ensures log == Observe(config, old(Registers()), old(log), i)
    {
      hide Control, FtNext, MxNext, GoNext, Observe;
      log := Observe(config, Registers(), log, i);
      var r := ft.Registers();
      var (next, o) := Control(config, r, go.Registers(), i, MxSignals(mx.state, i, Aborts(r.state)));
      ft.Clock(config, next, o);
      mx.Clock(r.state, r.mif, o, i);
      go.Clock(r.run0, r.run1, i);
    }

    /** An edge of an error-free transfer. */
    method ClockTransfer(i: In)
      requires Plain(config) && Inv(config, Registers(), log) && Allowed(Registers(), i) && !Returned(Registers(), log)
      modifies this, ft, mx, go
      ensures Registers() == Cycle(config, old(Registers()), i) && Inv(config, Registers(), log)
    {
      hide *;
      InvStep(config, Registers(), log, i);
      Clock(i);
    }
  }
}
