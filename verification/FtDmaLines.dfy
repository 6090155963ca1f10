/** The command lines of the Fast Transmitter, line by line, and its waits in the FIFO and
    message modes, for every configuration and input. */
module FtDmaLines {
  import opened FtDma

  // ---------------------------------------------------------------------------
  // Each line is driven exactly in these states and transitions
  // ---------------------------------------------------------------------------

  predicate SourceLines(s: FtState, next: FtState, o: Out) {
    && (MxBrq in o <==> s == Brq3 || next == Brq3)
    && (MxRead in o <==> s == Adr2 || next == Adr2)
    && (MxEnd in o <==> next == Dat01 || next == Dat11 || next == Dat2)
  }

  predicate BusLines(s: FtState, next: FtState, o: Out) {
    && (EbRq in o <==> next == Brq3 || next == Bc2)
    && (Strobe in o <==> s == Adr1 || s == Adr2 || s == Bc4 || next == Adr1 || next == Bc4)
    && (Eof in o <==> s == Dat01 || s == Dat11 || s == Dat2 || s == Bc4 || next == Bc4)
    && (EbDat in o <==> s == Adr2 && next != Adr2 && next != Abrt1)
    && (EbEof in o <==> s == Dat01 || s == Dat2 || s == Bc4 || s == Abrt1 || next == Bc3 || (s != Brq9 && next == Brq9))
    && (Irq in o <==> s == End2) && (IrqEnd in o <==> s == Bc4)
  }

  predicate CountLines(s: FtState, next: FtState, o: Out) {
    && (BcLd in o <==> s == Brq1 || (s == End1 && next == Brq2)) && (DbLd in o <==> s == Brq2)
    && (BcEn in o <==> s == Dat1 || s == Dat01 || next == Dat1 || next == Dat01)
    && (DaEn in o <==> BcEn in o) && (MaEn in o <==> BcEn in o)
    && (DaClr in o <==> s == Wait2) && (MaLd in o <==> s == Wait2) && (PausEn in o <==> s == Brq9)
  }

  predicate RunLines(s: FtState, next: FtState, o: Out) {
    && (Init0 in o <==> (s == Wait0 && next == Wait2) || (s == Rst1 && next == Rst2))
    && (Init1 in o <==> s == Wait1 && next == Wait2)
    && (DmaDone in o <==> s == Bc4 || s == Abrt1 || next == Rst3)
  }

  predicate LinesOf(s: FtState, step: (FtState, Out)) { Ports(s, step) && Inside(s, step) }

  predicate Ports(s: FtState, step: (FtState, Out)) {
    SourceLines(s, step.0, step.1) && BusLines(s, step.0, step.1)
  }

  predicate Inside(s: FtState, step: (FtState, Out)) {
    CountLines(s, step.0, step.1) && RunLines(s, step.0, step.1)
  }

  lemma SleepingPorts(c: Config, r: FtRegs, go: GoRegs, i: In, mx: MxOut)
    requires r.state in {Iddle, Wait0, Wait1}
    ensures Ports(r.state, Sleeping(c, r, go, i, mx))
  {
  }

  lemma SleepingInside(c: Config, r: FtRegs, go: GoRegs, i: In, mx: MxOut)
    requires r.state in {Iddle, Wait0, Wait1}
    ensures Inside(r.state, Sleeping(c, r, go, i, mx))
  {
  }

  lemma WaitingPorts(c: Config, r: FtRegs, go: GoRegs, i: In, mx: MxOut)
    requires r.state in {Wait2, Wait3, Wait4, Wait9}
    ensures Ports(r.state, Sleeping(c, r, go, i, mx))
  {
  }

  lemma WaitingInside(c: Config, r: FtRegs, go: GoRegs, i: In, mx: MxOut)
    requires r.state in {Wait2, Wait3, Wait4, Wait9}
    ensures Inside(r.state, Sleeping(c, r, go, i, mx))
  {
  }

  lemma RequestingPorts(r: FtRegs, i: In, mx: MxOut)
    requires r.state in {Brq1, Brq2}
    ensures Ports(r.state, Requesting(r, i, mx))
  {
  }

  lemma RequestingInside(r: FtRegs, i: In, mx: MxOut)
    requires r.state in {Brq1, Brq2}
    ensures Inside(r.state, Requesting(r, i, mx))
  {
  }

  lemma GrantedPorts(r: FtRegs, i: In, mx: MxOut)
    requires r.state in {Brq3, Brq9}
    ensures Ports(r.state, Requesting(r, i, mx))
  {
  }

  lemma GrantedInside(r: FtRegs, i: In, mx: MxOut)
    requires r.state in {Brq3, Brq9}
    ensures Inside(r.state, Requesting(r, i, mx))
  {
  }

  lemma AddressingPorts(c: Config, r: FtRegs, i: In, mx: MxOut)
    requires r.state == Adr1
    ensures Ports(r.state, Moving(c, r, i, mx))
  {
  }

  lemma AddressingInside(c: Config, r: FtRegs, i: In, mx: MxOut)
    requires r.state == Adr1
    ensures Inside(r.state, Moving(c, r, i, mx))
  {
  }

  lemma OpeningPorts(c: Config, r: FtRegs, i: In, mx: MxOut)
    requires r.state == Adr2
    ensures Ports(r.state, Moving(c, r, i, mx))
  {
  }

  lemma OpeningInside(c: Config, r: FtRegs, i: In, mx: MxOut)
    requires r.state == Adr2
    ensures Inside(r.state, Moving(c, r, i, mx))
  {
  }

  lemma WordPorts(c: Config, r: FtRegs, i: In, mx: MxOut)
    requires r.state == Dat1
    ensures Ports(r.state, Moving(c, r, i, mx))
  {
  }

  lemma WordInside(c: Config, r: FtRegs, i: In, mx: MxOut)
    requires r.state == Dat1
    ensures Inside(r.state, Moving(c, r, i, mx))
  {
  }

  lemma SinglePorts(c: Config, r: FtRegs, i: In, mx: MxOut)
    requires r.state == Dat01
    ensures Ports(r.state, Moving(c, r, i, mx))
  {
  }

  lemma ClosingPorts(c: Config, r: FtRegs, i: In, mx: MxOut)
    requires r.state in {Dat11, Dat2}
    ensures Ports(r.state, Moving(c, r, i, mx))
  {
  }

  lemma SingleInside(c: Config, r: FtRegs, i: In, mx: MxOut)
    requires r.state == Dat01
    ensures Inside(r.state, Moving(c, r, i, mx))
  {
  }

  lemma ClosingInside(c: Config, r: FtRegs, i: In, mx: MxOut)
    requires r.state in {Dat11, Dat2}
    ensures Inside(r.state, Moving(c, r, i, mx))
  {
  }

  lemma EndingPorts(c: Config, r: FtRegs, i: In, mx: MxOut)
    requires r.state in {End1, End2}
    ensures Ports(r.state, Ending(c, r, i, mx))
  {
  }

  lemma EndingInside(c: Config, r: FtRegs, i: In, mx: MxOut)
    requires r.state in {End1, End2}
    ensures Inside(r.state, Ending(c, r, i, mx))
  {
  }

  lemma AskingPorts(c: Config, r: FtRegs, i: In, mx: MxOut)
    requires r.state in {Bc1, Bc2}
    ensures Ports(r.state, Ending(c, r, i, mx))
  {
  }

  lemma AskingInside(c: Config, r: FtRegs, i: In, mx: MxOut)
    requires r.state in {Bc1, Bc2}
    ensures Inside(r.state, Ending(c, r, i, mx))
  {
  }

  lemma BroadcastPorts(c: Config, r: FtRegs, i: In, mx: MxOut)
    requires r.state == Bc4
    ensures Ports(r.state, Ending(c, r, i, mx))
  {
  }

  lemma BroadcastInside(c: Config, r: FtRegs, i: In, mx: MxOut)
    requires r.state == Bc4
    ensures Inside(r.state, Ending(c, r, i, mx))
  {
  }

  lemma RestingPorts(c: Config, r: FtRegs, i: In, mx: MxOut)
    requires r.state in {Bc3, Bc5, Bc6}
    ensures Ports(r.state, Ending(c, r, i, mx))
  {
  }

  lemma RestingInside(c: Config, r: FtRegs, i: In, mx: MxOut)
    requires r.state in {Bc3, Bc5, Bc6}
    ensures Inside(r.state, Ending(c, r, i, mx))
  {
  }

  lemma AbortingPorts(c: Config, r: FtRegs, mx: MxOut)
    requires r.state in {Abrt1, Abrt2}
    ensures Ports(r.state, Aborting(c, r, mx))
  {
  }

  lemma AbortingInside(c: Config, r: FtRegs, mx: MxOut)
    requires r.state in {Abrt1, Abrt2}
    ensures Inside(r.state, Aborting(c, r, mx))
  {
  }

  lemma IdlingPorts(c: Config, r: FtRegs, mx: MxOut)
    requires r.state in {Abrt3, Rst1}
    ensures Ports(r.state, Aborting(c, r, mx))
  {
  }

  lemma ResetPorts(c: Config, r: FtRegs, mx: MxOut)
    requires r.state in {Rst2, Rst3}
    ensures Ports(r.state, Aborting(c, r, mx))
  {
  }

  lemma IdlingInside(c: Config, r: FtRegs, mx: MxOut)
    requires r.state in {Abrt3, Rst1}
    ensures Inside(r.state, Aborting(c, r, mx))
  {
  }

  lemma ResetInside(c: Config, r: FtRegs, mx: MxOut)
    requires r.state in {Rst2, Rst3}
    ensures Inside(r.state, Aborting(c, r, mx))
  {
  }

  lemma LinesExactly(c: Config, r: FtRegs, go: GoRegs, i: In, mx: MxOut)
    ensures LinesOf(r.state, Control(c, r, go, i, mx))
  {
    hide Ports, Inside, Sleeping, Requesting, Moving, Ending, Aborting;
    match r.state
    case Iddle | Wait0 | Wait1 =>
      SleepingPorts(c, r, go, i, mx);
      SleepingInside(c, r, go, i, mx);
    case Wait2 | Wait3 | Wait4 | Wait9 =>
      WaitingPorts(c, r, go, i, mx);
      WaitingInside(c, r, go, i, mx);
    case Brq1 | Brq2 =>
      RequestingPorts(r, i, mx);
      RequestingInside(r, i, mx);
    case Brq3 | Brq9 =>
      GrantedPorts(r, i, mx);
      GrantedInside(r, i, mx);
    case Adr1 =>
      AddressingPorts(c, r, i, mx);
      AddressingInside(c, r, i, mx);
    case Adr2 =>
      OpeningPorts(c, r, i, mx);
      OpeningInside(c, r, i, mx);
    case Dat1 =>
      WordPorts(c, r, i, mx);
      WordInside(c, r, i, mx);
    case Dat01 =>
      SinglePorts(c, r, i, mx);
      SingleInside(c, r, i, mx);
    case Dat11 | Dat2 =>
      ClosingPorts(c, r, i, mx);
      ClosingInside(c, r, i, mx);
    case End1 | End2 =>
      EndingPorts(c, r, i, mx);
      EndingInside(c, r, i, mx);
    case Bc1 | Bc2 =>
      AskingPorts(c, r, i, mx);
      AskingInside(c, r, i, mx);
    case Bc4 =>
      BroadcastPorts(c, r, i, mx);
      BroadcastInside(c, r, i, mx);
    case Bc3 | Bc5 | Bc6 =>
      RestingPorts(c, r, i, mx);
      RestingInside(c, r, i, mx);
    case Abrt1 | Abrt2 =>
      AbortingPorts(c, r, mx);
      AbortingInside(c, r, mx);
    case Abrt3 | Rst1 =>
      IdlingPorts(c, r, mx);
      IdlingInside(c, r, mx);
    case Rst2 | Rst3 =>
      ResetPorts(c, r, mx);
      ResetInside(c, r, mx);
  }

  // ---------------------------------------------------------------------------
  // What ends each wait
  // ---------------------------------------------------------------------------

  predicate Flushing(c: Config, i: In) { c.desc0.flush || c.desc1.flush || i.cmdFlush }

  predicate Fault(i: In, mx: MxOut) { i.ebErr || !i.ebDk || mx.err }

  /** In a data phase: a fault ends the run; the payload or the descriptor being used up, or an
      empty FIFO, ends the frame, and an empty FIFO that is not being flushed is an overlap. */
  lemma FrameEndsExactly(c: Config, r: FtRegs, go: GoRegs, i: In, mx: MxOut)
    requires r.state == Dat1
    ensures
      var next := Control(c, r, go, i, mx).0;
      var used, dry := r.bcnt == 1 || r.daendm2, r.fifo && i.fifEmpty;
      && (next == Abrt1 <==> Fault(i, mx)) && (next == Dat1 <==> !Fault(i, mx) && !used && !dry)
      && (next == Dat11 <==> !Fault(i, mx) && !used && dry && !Flushing(c, i))
      && (next == Dat2 <==> !Fault(i, mx) && (used || (dry && Flushing(c, i))))
  {
    hide Sleeping, Requesting, Ending, Aborting;
  }

  /** After a burst: the descriptor is finished when all its words are moved or its FIFO is
      flushed, another burst follows at once unless a composite burst of the FIFO is over. */
  lemma BurstFollowsExactly(c: Config, r: FtRegs, go: GoRegs, i: In, mx: MxOut)
    requires r.state == End1
    ensures
      var next := Control(c, r, go, i, mx).0;
      && (next == End2 <==> r.daendall || (r.fifo && !i.fcZero && Flushing(c, i)))
      && (next == Brq2 <==> !r.daendall && (!r.fifo || (!i.fcZero && !Flushing(c, i))))
      && (next == Wait3 <==> !r.daendall && r.fifo && i.fcZero && r.mif)
      && (next == Wait9 <==> !r.daendall && r.fifo && i.fcZero && !r.mif)
  {
    hide Sleeping, Requesting, Moving, Aborting;
  }

  /** A descriptor is begun by asking for the bus, or by waiting for its message or FIFO. */
  lemma BegunExactly(c: Config, r: FtRegs, go: GoRegs, i: In, mx: MxOut)
    requires r.state == Wait2 || r.state == Wait9
    ensures
      var next := Control(c, r, go, i, mx).0;
      var aborted := c.desc0.abrt || c.desc1.abrt || i.cmdAbort;
      && (r.state == Wait2 ==>
            && (next == Brq1 <==> !r.mif && !r.fifo) && (next == Wait3 <==> r.mif)
            && (next == Wait9 <==> !r.mif && r.fifo))
      && (r.state == Wait9 ==>
            && (next == Abrt1 <==> aborted) && (next == Brq1 <==> !aborted && (i.fifRdy || Flushing(c, i)))
            && (next == Wait9 <==> !aborted && !i.fifRdy && !Flushing(c, i)))
  {
    hide Requesting, Moving, Ending, Aborting;
  }

  /** A message channel is waited for exactly until it answers; an error at the start or at
      the end of a message ends the run. */
  lemma MessageAnswered(c: Config, r: FtRegs, go: GoRegs, i: In, mx: MxOut)
    requires (r.mif && r.state in {Wait4, End2, Abrt3}) || r.state == Rst2
    ensures
      var next := Control(c, r, go, i, mx).0;
      && (next == r.state <==> !mx.err && !mx.rdy)
      && (r.state == Wait4 ==> (next == Abrt1 <==> mx.err) && (next == Wait9 <==> mx.rdy && !mx.err))
      && (r.state == End2 ==> (next == Abrt1 <==> mx.err) && (next == Bc1 <==> mx.rdy && !mx.err))
      && (next != r.state ==> (r.state == Abrt3 ==> next == Iddle) && (r.state == Rst2 ==> next == Rst3))
  {
    hide Requesting, Moving;
  }

  /** An abort closes the message channel of its run alone; a reset runs for a message
      descriptor alone. */
  lemma ChannelsAlone(c: Config, r: FtRegs, go: GoRegs, i: In, mx: MxOut)
    requires (!r.mif && r.state in {End2, Abrt3}) || r.state in {Rst1, Rst3}
    ensures
      var next := Control(c, r, go, i, mx).0;
      && (r.state == End2 ==> next == Bc1) && (r.state == Abrt3 || r.state == Rst3 ==> next == Iddle)
      && (r.state == Rst1 ==> (next == Rst2 <==> c.desc0.mif) && (next == Iddle <==> !c.desc0.mif))
  {
    hide Sleeping, Requesting, Moving;
  }

  // ---------------------------------------------------------------------------
  // The source master, and the registers of a run
  // ---------------------------------------------------------------------------

  /** What makes the source master give up, whatever it is doing. */
  predicate GivesUp(m: MxState, i: In, s: FtState, mif: bool, o: Out) {
    match m
    case MxIddle | MxWr1 => false
    case MxBrq1 => !i.eb2Bg
    case MxAdr1 => s in {Brq9, Abrt1, Abrt2}
    case MxAdr2 => i.eb2Err || s in {Brq9, Abrt1, Abrt2}
    case MxWr2 | MxRd1 => !i.eb2Dk || s in {Brq9, Abrt1, Abrt2}
    case MxAbrt1 => Asked(s, mif, o) || MxRead in o
  }

  /** The bus is asked for to read a burst or to write to a message channel. */
  predicate Asked(s: FtState, mif: bool, o: Out) { MxBrq in o || Channel(s, mif) }

  predicate Channel(s: FtState, mif: bool) { s == Wait4 || Closes(s, mif) }

  /** A message is begun with two words, ended or reset with one. */
  predicate Closes(s: FtState, mif: bool) { s == Rst2 || (mif && (s == End2 || s == Abrt3)) }

  predicate SourceStep(m: MxState, i: In, s: FtState, mif: bool, o: Out, next: MxState, ebrq: bool, ebeof: bool) {
    && (next == MxAbrt1 <==> GivesUp(m, i, s, mif, o))
    && (next == MxBrq1 <==> m == MxIddle && Asked(s, mif, o) && !i.eb2Bmx && !i.eb2Bft)
    && (next == MxAdr1 <==> (m == MxBrq1 && i.eb2Bg)
                            || (m == MxAdr1 && !GivesUp(m, i, s, mif, o) && !Channel(s, mif) && MxRead !in o))
    && (next == MxWr1 <==> m == MxAdr2 && !GivesUp(m, i, s, mif, o) && i.eb2Dk && Channel(s, mif) && !Closes(s, mif))
    && (next == MxWr2 <==> m == MxWr1 || (m == MxAdr2 && !GivesUp(m, i, s, mif, o) && i.eb2Dk && Closes(s, mif)))
    && (next == MxRd1 <==> !GivesUp(m, i, s, mif, o)
                           && ((m == MxAdr2 && i.eb2Dk && !Channel(s, mif)) || (m == MxRd1 && MxEnd !in o)))
    && (m == MxWr2 || (m == MxRd1 && MxEnd in o) ==> next == MxIddle || next == MxAbrt1)
    && (ebrq <==> next == MxBrq1)
    && (ebeof <==> m != MxIddle && m != MxAbrt1 && (next == MxIddle || next == MxAbrt1))
  }

  lemma SourceAsks(m: MxState, i: In, s: FtState, mif: bool, o: Out)
    requires m in {MxIddle, MxBrq1}
    ensures
      var (next, ebrq, ebeof) := MxControl(m, i, s, mif, o);
      SourceStep(m, i, s, mif, o, next, ebrq, ebeof)
  {
  }

  lemma SourceWaits(m: MxState, i: In, s: FtState, mif: bool, o: Out)
    requires m == MxAdr1
    ensures
      var (next, ebrq, ebeof) := MxControl(m, i, s, mif, o);
      SourceStep(m, i, s, mif, o, next, ebrq, ebeof)
  {
  }

  lemma SourceAddresses(m: MxState, i: In, s: FtState, mif: bool, o: Out)
    requires m == MxAdr2
    ensures
      var (next, ebrq, ebeof) := MxControl(m, i, s, mif, o);
      SourceStep(m, i, s, mif, o, next, ebrq, ebeof)
  {
  }

  lemma SourceMoves(m: MxState, i: In, s: FtState, mif: bool, o: Out)
    requires m in {MxWr1, MxWr2, MxRd1, MxAbrt1}
    ensures
      var (next, ebrq, ebeof) := MxControl(m, i, s, mif, o);
      SourceStep(m, i, s, mif, o, next, ebrq, ebeof)
  {
  }

  lemma SourceMasterExactly(m: MxState, i: In, s: FtState, mif: bool, o: Out)
    ensures
      var (next, ebrq, ebeof) := MxControl(m, i, s, mif, o);
      SourceStep(m, i, s, mif, o, next, ebrq, ebeof)
  {
    hide SourceStep, MxControl;
    match m
    case MxIddle | MxBrq1 => SourceAsks(m, i, s, mif, o);
    case MxAdr1 => SourceWaits(m, i, s, mif, o);
    case MxAdr2 => SourceAddresses(m, i, s, mif, o);
    case MxWr1 | MxWr2 | MxRd1 | MxAbrt1 => SourceMoves(m, i, s, mif, o);
  }

  /** A message has been taken, and the transmitter is told so, exactly when the source
      master comes to rest after its last word. */
  lemma MessageTakenExactly(m: MxRegs, i: In, s: FtState, mif: bool, o: Out)
    requires m.state == MxWr2
    ensures MxSignals(m.state, i, Aborts(s)).rdy <==> MxNext(m, i, s, mif, o).state == MxIddle
    ensures !MxNext(m, i, s, mif, o).ebmx
  {
  }

  /** A run takes the modes of its own descriptor. */
  lemma ModesTaken(c: Config, s: System, i: In)
    requires (s.ft.state == Wait0 || s.ft.state == Wait1) && !s.ft.run0 && !s.ft.run1 && !s.ft.fifo && !s.ft.mif
    ensures
      var t, d := Cycle(c, s, i).ft, if s.ft.state == Wait0 then c.desc0 else c.desc1;
      t.state == Wait2 ==>
        && (t.run0 <==> s.ft.state == Wait0) && (t.run1 <==> s.ft.state == Wait1)
        && (t.fifo <==> d.fifo) && (t.mif <==> d.mif)
  {
    hide Requesting, Moving, Ending, Aborting, MxNext, GoNext, Within, Inc;
  }

  /** The count of moved words is copied to the status of the descriptor that runs. */
  lemma StatusCopied(c: Config, s: System, i: In)
    ensures
      var t := Cycle(c, s, i).ft;
      && t.sts0 == (if s.ft.run0 then s.ft.dacnt else s.ft.sts0)
      && t.sts1 == (if s.ft.run1 then s.ft.dacnt else s.ft.sts1)
  {
    hide Outcome, MxNext, GoNext, Within, Inc, Latch;
  }
}
