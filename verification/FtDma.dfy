/** The Fast Transmitter DMA engine, cycle by cycle: the state machine that moves bursts to
    the first E-bone, the master that reads them from the second E-bone, and the control
    bits that start it.  Destination words are 64 bits wide. */
module FtDma {
  type Word = nat

  datatype FtState =
    | Iddle | Wait0 | Wait1 | Wait2 | Wait3 | Wait4 | Wait9
    | Brq1 | Brq2 | Brq3 | Brq9 | Adr1 | Adr2 | Dat01 | Dat1 | Dat11 | Dat2 | End1 | End2
    | Bc1 | Bc2 | Bc3 | Bc4 | Bc5 | Bc6 | Abrt1 | Abrt2 | Abrt3 | Rst1 | Rst2 | Rst3

  datatype MxState = MxIddle | MxBrq1 | MxAdr1 | MxAdr2 | MxRd1 | MxWr1 | MxWr2 | MxAbrt1

  const COUNT := 0x100_0000         // dacnt has 24 bits
  const OFFSET := 0x1000_0000       // macnt has 28 bits
  const ADDRESS := 0x1_0000_0000

  /** A descriptor, without its GO bit. */
  datatype Descriptor = Descriptor(
    link: bool, abrt: bool, flush: bool, fifo: bool, mif: bool,
    count: nat, dest: nat, segment: nat, source: nat)

  /** Registers that software sets; `payload` is in destination words. */
  datatype Config = Config(desc0: Descriptor, desc1: Descriptor, payload: nat)

  /** What the engine samples in one cycle. */
  datatype In = In(
    cmdReset: bool, cmdGo: bool, cmdAbort: bool, cmdFlush: bool,
    fifRdy: bool, fifEmpty: bool, fcZero: bool,                  // FIFO status
    ebBmx: bool, ebBft: bool, ebDk: bool, ebErr: bool,           // first E-bone
    eb2Bmx: bool, eb2Bft: bool, eb2Bg: bool, eb2Dk: bool, eb2Err: bool, eb2Dat: Word,
    writeGo0: bool, goValue0: bool, writeGo1: bool, goValue1: bool)

  datatype FtRegs = FtRegs(
    state: FtState, ebft: bool, ebbc: bool, ebadrs: bool,
    run0: bool, run1: bool, fifo: bool, mif: bool,
    pauscnt: nat, bcnt: nat, dacnt: nat, macnt: nat, maseg: nat, daburst: nat,
    sts0: nat, sts1: nat,
    daendm2: bool, daendm1: bool, daendall: bool)

  datatype MxRegs = MxRegs(state: MxState, ebmx: bool, dout: Word)

  datatype GoRegs = GoRegs(go0: bool, rund0: bool, done0: bool, go1: bool, rund1: bool, done1: bool)

  datatype System = System(ft: FtRegs, mx: MxRegs, go: GoRegs)

  /** Commands of the state machine: those raised in a cycle form its output.  The
      almost-end flags, which only steer the buses, are not among them. */
  datatype Command =
    | Init0 | Init1 | EbRq | EbDat | EbEof | BcLd | BcEn | DaClr | DbLd | DaEn | MaLd | MaEn
    | Irq | IrqEnd | DmaDone | PausEn | MxBrq | MxRead | MxEnd | Strobe | Eof

  type Out = set<Command>

  /** The source bus master's answer. */
  datatype MxOut = MxOut(bg: bool, rdy: bool, err: bool)

  // Commands to the source bus master that depend on the state alone.
  predicate Aborts(s: FtState) { s == Brq9 || s == Abrt1 || s == Abrt2 }

  predicate Clears(s: FtState, mif: bool) { mif && (s == End2 || s == Abrt3) }

  predicate Resets(s: FtState) { s == Rst2 }

  predicate Writes(s: FtState, mif: bool) { s == Wait4 || Clears(s, mif) || Resets(s) }

  // ---------------------------------------------------------------------------
  // The state machine of the Fast Transmitter
  // ---------------------------------------------------------------------------

  /** Asleep, or taking a new descriptor. */
  function Sleeping(c: Config, r: FtRegs, go: GoRegs, i: In, mx: MxOut): (FtState, Out) {
    var flush := c.desc0.flush || c.desc1.flush || i.cmdFlush;
    match r.state
    case Iddle =>
      (if i.cmdReset then Rst1 else if go.go0 || i.cmdGo then Wait0 else Iddle, {})
    case Wait0 =>
      if c.desc0.abrt || i.cmdAbort then (Abrt1, {})
      else if go.go0 || i.cmdGo then (Wait2, {Init0})
      else (Wait0, {})
    case Wait1 =>
      if c.desc1.abrt then (Abrt1, {})
      else if go.go1 then (Wait2, {Init1})
      else (Wait1, {})
    case Wait2 =>
      (if r.mif then Wait3 else if r.fifo then Wait9 else Brq1, {DaClr, MaLd})
    case Wait3 => (Wait4, {})
    case Wait4 =>
      (if mx.err then Abrt1 else if mx.rdy then Wait9 else Wait4, {})
    case Wait9 =>
      (if c.desc0.abrt || c.desc1.abrt || i.cmdAbort then Abrt1 else if i.fifRdy || flush then Brq1 else Wait9, {})
    case _ => (r.state, {})
  }

  /** Asking for both buses, and pausing before another attempt. */
  function Requesting(r: FtRegs, i: In, mx: MxOut): (FtState, Out) {
    match r.state
    case Brq1 => (Brq2, {BcLd})
    case Brq2 =>
      if !i.ebBmx then (Brq3, {DbLd, EbRq, MxBrq}) else (Brq2, {DbLd})
    case Brq3 =>
      if i.ebBft && mx.bg then (Adr1, {MxBrq, Strobe})
      else (Brq9, {MxBrq, EbEof})
    case Brq9 => (if r.pauscnt >= 8 then Brq1 else Brq9, {PausEn})
    case _ => (r.state, {})
  }

  /** Addressing, and the data phase. */
  function Moving(c: Config, r: FtRegs, i: In, mx: MxOut): (FtState, Out) {
    var flush := c.desc0.flush || c.desc1.flush || i.cmdFlush;
    match r.state
    case Adr1 =>
      if i.ebErr then
        if i.ebDk then (Brq9, {Strobe, EbEof}) else (Abrt1, {Strobe})
      else if i.ebDk then (Adr2, {Strobe, MxRead})
      else (Adr1, {Strobe})
    case Adr2 =>
      if i.ebErr || mx.err then (Abrt1, {Strobe, MxRead})
      else if mx.rdy then
        if r.daendm1 then (Dat01, {Strobe, MxRead, EbDat, BcEn, DaEn, MaEn, MxEnd})
        else (Dat1, {Strobe, MxRead, EbDat, BcEn, DaEn, MaEn})
      else (Adr2, {Strobe, MxRead})
    case Dat01 =>
      (End2, {BcEn, DaEn, MaEn, Eof, EbEof})
    case Dat1 =>
      if i.ebErr || !i.ebDk || mx.err then (Abrt1, {BcEn, DaEn, MaEn})
      else if r.bcnt == 1 || r.daendm2 then (Dat2, {BcEn, DaEn, MaEn, MxEnd})
      else if r.fifo && i.fifEmpty then (if flush then Dat2 else Dat11, {BcEn, DaEn, MaEn, MxEnd})
      else (Dat1, {BcEn, DaEn, MaEn})
    case Dat11 => (Abrt1, {Eof})
    case Dat2 => (End1, {Eof, EbEof})
    case _ => (r.state, {})
  }

  /** The end of a burst, and the broadcast that ends a transfer. */
  function Ending(c: Config, r: FtRegs, i: In, mx: MxOut): (FtState, Out) {
    var flush := c.desc0.flush || c.desc1.flush || i.cmdFlush;
    match r.state
    case End1 =>
      if r.daendall then (End2, {})
      else if r.fifo && i.fcZero then (if r.mif then Wait3 else Wait9, {})
      else if r.fifo && flush then (End2, {})
      else (Brq2, {BcLd})
    case End2 =>
      (if r.mif then (if mx.err then Abrt1 else if mx.rdy then Bc1 else End2) else Bc1, {Irq})
    case Bc1 => if !i.ebBmx then (Bc2, {EbRq}) else (Bc1, {})
    case Bc2 =>
      if i.ebBft then (Bc4, {Strobe, Eof}) else (Bc3, {EbEof})
    case Bc3 => (Bc1, {})
    case Bc4 =>
      (if r.run0 && c.desc0.link then Wait1 else if r.run1 && c.desc1.link then Wait0 else Bc5,
       {Strobe, Eof, IrqEnd, EbEof, DmaDone})
    case Bc5 => (Bc6, {})
    case Bc6 => (Iddle, {})
    case _ => (r.state, {})
  }

  /** Errors, and the reset of a message channel. */
  function Aborting(c: Config, r: FtRegs, mx: MxOut): (FtState, Out) {
    match r.state
    case Abrt1 => (Abrt2, {EbEof, DmaDone})
    case Abrt2 => (if c.desc0.abrt || c.desc1.abrt then Abrt3 else Bc1, {})
    case Abrt3 => (if r.mif && !mx.err && !mx.rdy then Abrt3 else Iddle, {})
    case Rst1 => if c.desc0.mif then (Rst2, {Init0}) else (Iddle, {})
    case Rst2 => if mx.err || mx.rdy then (Rst3, {DmaDone}) else (Rst2, {})
    case Rst3 => (Iddle, {})
    case _ => (r.state, {})
  }

  /** The next state and the outputs. */
  function Control(c: Config, r: FtRegs, go: GoRegs, i: In, mx: MxOut): (FtState, Out) {
    match r.state
    case Iddle | Wait0 | Wait1 | Wait2 | Wait3 | Wait4 | Wait9 => Sleeping(c, r, go, i, mx)
    case Brq1 | Brq2 | Brq3 | Brq9 => Requesting(r, i, mx)
    case Adr1 | Adr2 | Dat01 | Dat1 | Dat11 | Dat2 => Moving(c, r, i, mx)
    case End1 | End2 | Bc1 | Bc2 | Bc3 | Bc4 | Bc5 | Bc6 => Ending(c, r, i, mx)
    case Abrt1 | Abrt2 | Abrt3 | Rst1 | Rst2 | Rst3 => Aborting(c, r, mx)
  }

  // ---------------------------------------------------------------------------
  // The master on the source bus
  // ---------------------------------------------------------------------------

  function MxSignals(m: MxState, i: In, abrt: bool): MxOut {
    MxOut(bg := (m == MxBrq1 && i.eb2Bg) || m == MxAdr1,
          rdy := m == MxRd1 || (m == MxWr2 && i.eb2Dk && !abrt),
          err := m == MxAbrt1)
  }

  /** The next state, with the bus request and release. */
  function MxControl(m: MxState, i: In, s: FtState, mif: bool, o: Out): (MxState, bool, bool) {
    match m
    case MxIddle =>
      if (MxBrq in o || Writes(s, mif)) && !i.eb2Bmx && !i.eb2Bft then (MxBrq1, true, false)
      else (MxIddle, false, false)
    case MxBrq1 => if i.eb2Bg then (MxAdr1, false, false) else (MxAbrt1, false, true)
    case MxAdr1 =>
      if Aborts(s) then (MxAbrt1, false, true)
      else if Writes(s, mif) || MxRead in o then (MxAdr2, false, false)
      else (MxAdr1, false, false)
    case MxAdr2 =>
      if i.eb2Err || Aborts(s) then (MxAbrt1, false, true)
      else if i.eb2Dk then
        (if Clears(s, mif) || Resets(s) then MxWr2 else if Writes(s, mif) then MxWr1 else MxRd1, false, false)
      else (MxAdr2, false, false)
    case MxWr1 => (MxWr2, false, false)
    case MxWr2 => (if !i.eb2Dk || Aborts(s) then MxAbrt1 else MxIddle, false, true)
    case MxRd1 =>
      if !i.eb2Dk || Aborts(s) then (MxAbrt1, false, true)
      else if MxEnd in o then (MxIddle, false, true)
      else (MxRd1, false, false)
    case MxAbrt1 =>
      (if MxBrq !in o && !Writes(s, mif) && MxRead !in o then MxIddle else MxAbrt1, false, false)
  }

  /** The address put on the source bus while reading: its two low bits are the command
      flags of a message, which are zero. */
  function IssuedAddress(maseg: nat, macnt: nat): nat {
    maseg * OFFSET + macnt - macnt % 4
  }

  // ---------------------------------------------------------------------------
  // Registers
  // ---------------------------------------------------------------------------

  /** A flip-flop that is set, or keeps its value, unless it is cleared. */
  function Latch(set1: bool, q: bool, clear: bool): bool { (set1 || q) && !clear }

  function Inc(x: nat, top: nat): nat { if x + 1 >= top then 0 else x + 1 }

  /** `dacnt < count - k` is false, in 24-bit arithmetic. */
  predicate Within(dacnt: nat, count: nat, k: nat) {
    dacnt >= (if count >= k then count - k else count - k + COUNT)
  }

  function FtNext(c: Config, r: FtRegs, state: FtState, o: Out): FtRegs {
    var d := if r.run0 then c.desc0 else c.desc1;
    FtRegs(
      state,
      Latch(EbRq in o, r.ebft, EbEof in o),
      Latch(Irq in o, r.ebbc, IrqEnd in o),
      Latch(BcLd in o, r.ebadrs, EbDat in o),
      Latch(Init0 in o, r.run0, DmaDone in o),
      Latch(Init1 in o, r.run1, DmaDone in o),
      Latch((Init0 in o && c.desc0.fifo) || (Init1 in o && c.desc1.fifo), r.fifo, DmaDone in o),
      Latch((Init0 in o && c.desc0.mif) || (Init1 in o && c.desc1.mif), r.mif, DmaDone in o),
      if BcLd in o then 0 else if PausEn in o then Inc(r.pauscnt, 16) else r.pauscnt,
      if BcLd in o then c.payload else if BcEn in o then (if r.bcnt == 0 then 255 else r.bcnt - 1) else r.bcnt,
      if DaClr in o then 0 else if DaEn in o then Inc(r.dacnt, COUNT) else r.dacnt,
      if MaLd in o then d.source else if MaEn in o then Inc(r.macnt, OFFSET) else r.macnt,
      if MaLd in o then d.segment else r.maseg,
      if DbLd in o then (d.dest + 8 * r.dacnt) % ADDRESS else r.daburst,
      if r.run0 then r.dacnt else r.sts0,
      if r.run1 then r.dacnt else r.sts1,
      Within(r.dacnt, d.count, 2),
      Within(r.dacnt, d.count, 1),
      Within(r.dacnt, d.count, 0))
  }

  /** The GO bit: clearing wins over a write. */
  function GoBit(go: bool, done: bool, write: bool, value: bool): bool {
    if done then false else if write then value else go
  }

  /** A run flag was set in the cycle before and is not now. */
  function Fell(before: bool, now: bool): bool { before && !now }

  /** The end-of-run detectors and the GO bits they clear. */
  function GoNext(g: GoRegs, i: In, run0: bool, run1: bool): GoRegs {
    GoRegs(
      GoBit(g.go0, g.done0, i.writeGo0, i.goValue0), run0, Fell(g.rund0, run0),
      GoBit(g.go1, g.done1, i.writeGo1, i.goValue1), run1, Fell(g.rund1, run1))
  }

  /** What a cycle does, given the state that follows and the outputs. */
  function Outcome(c: Config, s: System, i: In): (FtState, Out) {
    Control(c, s.ft, s.go, i, MxSignals(s.mx.state, i, Aborts(s.ft.state)))
  }

  function MxNext(m: MxRegs, i: In, s: FtState, mif: bool, o: Out): MxRegs {
    var (state, ebrq, ebeof) := MxControl(m.state, i, s, mif, o);
    MxRegs(state, Latch(ebrq, m.ebmx, ebeof), i.eb2Dat)
  }

  /** One clock edge of the whole engine. */
  function Cycle(c: Config, s: System, i: In): System {
    var (state, o) := Outcome(c, s, i);
    System(FtNext(c, s.ft, state, o), MxNext(s.mx, i, s.ft.state, s.ft.mif, o),
           GoNext(s.go, i, s.ft.run0, s.ft.run1))
  }

  // ---------------------------------------------------------------------------
  // What can be seen on the two buses
  // ---------------------------------------------------------------------------

  /** The data lines of the first E-bone. */
  datatype Lines = Address(a: nat) | Data(w: Word)

  function Driven(s: System): Lines {
    if s.ft.ebadrs then Address(s.ft.daburst) else Data(s.mx.dout)
  }

  datatype Burst = Burst(address: nat, length: nat)

  /** The record of a transfer, taken from the lines of the two buses: the words of the data
      phases on the first and the words sampled on the second; the bursts that an end of
      frame has finished, with the address lines as they were strobed; the source addresses
      issued, with the count of words moved before each; the broadcasts and their clocks.
      `open` is set from an address phase to the end of its frame, `casting` in the clock
      after one of a broadcast. */
  datatype Log = Log(
    beats: seq<Lines>, samples: seq<Word>, bursts: seq<Burst>, strobed: Lines,
    sources: seq<(nat, nat)>, broadcasts: nat, clocks: nat, open: bool, casting: bool)

  /** An address phase, and a clock of a broadcast. */
  predicate Addresses(o: Out) { Strobe in o && Eof !in o }

  predicate Casts(o: Out) { Strobe in o && Eof in o }

  /** A data phase: the bus is held after an address phase, and nothing is strobed. */
  predicate DataPhase(s: System, g: Log, o: Out) { g.open && s.ft.ebft && Strobe !in o }

  function Total(bs: seq<Burst>): nat {
    if bs == [] then 0 else Total(bs[..|bs| - 1]) + bs[|bs| - 1].length
  }

  /** The address that a burst is recorded with. */
  function AddressOf(l: Lines): nat {
    match l case Address(a) => a case Data(_) => 0
  }

  function Record(s: System, g: Log, o: Out): Log {
    var data := DataPhase(s, g, o);
    var beats := if data then g.beats + [Driven(s)] else g.beats;
    Log(
      beats,
      g.samples,
      if data && Eof in o && |beats| >= Total(g.bursts)
        then g.bursts + [Burst(AddressOf(g.strobed), |beats| - Total(g.bursts))] else g.bursts,
      if Addresses(o) then Driven(s) else g.strobed,
      if s.mx.state == MxAdr1 && MxRead in o
        then g.sources + [(IssuedAddress(s.ft.maseg, s.ft.macnt), |beats|)] else g.sources,
      if Casts(o) && !g.casting then g.broadcasts + 1 else g.broadcasts,
      if Casts(o) then g.clocks + 1 else g.clocks,
      Addresses(o) || (data && Eof !in o),
      Casts(o))
  }

  /** A word is sampled in every cycle that the source master spends reading. */
  function Observe(c: Config, s: System, g: Log, i: In): Log {
    var h := Record(s, g, Outcome(c, s, i).1);
    if s.mx.state == MxRd1 then h.(samples := h.samples + [i.eb2Dat]) else h
  }
}
