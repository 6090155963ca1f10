/** How a transfer ends: the broadcast, the status, the GO bit, and the buses released. */
module FtDmaClosing {
  import opened FtDma
  import opened FtDmaRuns
  import opened FtDmaTransfer

  /** The moved-word count that is left after a last burst of `last` words. */
  function StatusOf(c: Config, last: nat): nat {
    if last == 1 then Inc(c.desc0.count, COUNT) else c.desc0.count
  }

  /** Broadcasts made, status and GO logic; `last` is the length of the last burst. */
  predicate Closing(c: Config, s: System, last: nat, casts: nat) {
    var r, g := s.ft, s.go;
    match r.state
    case Iddle =>
      && !g.rund0 && !g.done0
      && if casts == 0 then last == 0 else casts == 1 && last >= 1 && r.sts0 == StatusOf(c, last) && !g.go0
    case Wait0 | Wait2 => casts == 0 && last == 0 && !g.rund0 && !g.done0
    case End1 => casts == 0 && g.rund0 && !g.done0 && last >= 2
    case End2 | Bc1 | Bc2 | Bc3 => casts == 0 && g.rund0 && !g.done0 && last >= 1 && r.dacnt == StatusOf(c, last)
    case Bc4 => casts == 1 && g.rund0 && !g.done0 && last >= 1 && r.dacnt == StatusOf(c, last)
    case Bc5 => casts == 1 && g.rund0 && !g.done0 && last >= 1 && r.sts0 == StatusOf(c, last)
    case Bc6 => casts == 1 && !g.rund0 && g.done0 && last >= 1 && r.sts0 == StatusOf(c, last)
    case _ => casts == 0 && g.rund0 && !g.done0
  }

  function LastAfter(c: Config, s: System, d: nat, last: nat): nat {
    if EndsBurst(s.ft.state) then Length(c, d) else last
  }

  function CastsAfter(s: System, i: In, casts: nat): nat {
    if s.ft.state == Bc2 && i.ebBft then casts + 1 else casts
  }

  predicate ClosingNext(c: Config, s: System, i: In, d: nat, last: nat, casts: nat) {
    Closing(c, Cycle(c, s, i), LastAfter(c, s, d, last), CastsAfter(s, i, casts))
  }

  predicate Ready(c: Config, s: System, i: In, b: nat, w: nat, d: nat, last: nat, casts: nat) {
    Plain(c) && Core(c, s, b, w, d) && Facts(c, s, b, w, d) && Allowed(s, i) && Closing(c, s, last, casts)
  }

  lemma ClosingStart(c: Config, s: System, i: In, b: nat, w: nat, d: nat, last: nat, casts: nat)
    requires Ready(c, s, i, b, w, d, last, casts) && (s.ft.state == Iddle ==> casts == 0)
    requires s.ft.state == Iddle || s.ft.state == Wait0 || s.ft.state == Wait2
    ensures ClosingNext(c, s, i, d, last, casts)
  {
    hide Requesting, Moving, Ending, Aborting, MxNext, Retiring, Fresh;
  }

  lemma ClosingRequest(c: Config, s: System, i: In, b: nat, w: nat, d: nat, last: nat, casts: nat)
    requires Ready(c, s, i, b, w, d, last, casts)
    requires s.ft.state in {Brq1, Brq2, Brq3, Brq9}
    ensures ClosingNext(c, s, i, d, last, casts)
  {
    hide Sleeping, Moving, Ending, Aborting, MxNext, Retiring, Fresh, Length, Within;
  }

  lemma ClosingMove(c: Config, s: System, i: In, b: nat, w: nat, d: nat, last: nat, casts: nat)
    requires Ready(c, s, i, b, w, d, last, casts)
    requires s.ft.state == Adr1 || s.ft.state == Adr2
    ensures ClosingNext(c, s, i, d, last, casts)
  {
    hide Sleeping, Requesting, Ending, Aborting, MxNext, Retiring, Fresh, Length, Within;
  }

  lemma ClosingWord(c: Config, s: System, i: In, b: nat, w: nat, d: nat, last: nat, casts: nat)
    requires Ready(c, s, i, b, w, d, last, casts)
    requires s.ft.state == Dat1
    ensures ClosingNext(c, s, i, d, last, casts)
  {
    hide Sleeping, Requesting, Ending, Aborting, MxNext, Retiring, Fresh, Length, Within;
  }

  lemma ClosingLastWord(c: Config, s: System, i: In, b: nat, w: nat, d: nat, last: nat, casts: nat)
    requires Ready(c, s, i, b, w, d, last, casts)
    requires s.ft.state == Dat01 || s.ft.state == Dat2
    ensures ClosingNext(c, s, i, d, last, casts)
  {
    hide Sleeping, Requesting, Ending, Aborting, MxNext, Retiring, Fresh, Length, Within;
  }

  lemma ClosingTurn(c: Config, s: System, i: In, b: nat, w: nat, d: nat, last: nat, casts: nat)
    requires Ready(c, s, i, b, w, d, last, casts)
    requires s.ft.state == End1 || s.ft.state == End2
    ensures ClosingNext(c, s, i, d, last, casts)
  {
    hide Sleeping, Requesting, Moving, Aborting, MxNext, Retiring, Fresh, Length, Within;
  }

  lemma ClosingBroadcast(c: Config, s: System, i: In, b: nat, w: nat, d: nat, last: nat, casts: nat)
    requires Ready(c, s, i, b, w, d, last, casts)
    requires s.ft.state in {Bc1, Bc2}
    ensures ClosingNext(c, s, i, d, last, casts)
  {
    hide Sleeping, Requesting, Moving, Aborting, MxNext, Retiring, Fresh, Length, Within;
  }

  lemma ClosingGranted(c: Config, s: System, i: In, b: nat, w: nat, d: nat, last: nat, casts: nat)
    requires Ready(c, s, i, b, w, d, last, casts)
    requires s.ft.state == Bc3
    ensures ClosingNext(c, s, i, d, last, casts)
  {
    hide Sleeping, Requesting, Moving, Aborting, MxNext, Retiring, Fresh, Length, Within;
  }

  lemma ClosingCast(c: Config, s: System, i: In, b: nat, w: nat, d: nat, last: nat, casts: nat)
    requires Ready(c, s, i, b, w, d, last, casts)
    requires s.ft.state == Bc4
    ensures ClosingNext(c, s, i, d, last, casts)
  {
    hide Sleeping, Requesting, Moving, Aborting, MxNext, Retiring, Fresh, Length, Within;
  }

  lemma ClosingRest(c: Config, s: System, i: In, b: nat, w: nat, d: nat, last: nat, casts: nat)
    requires Ready(c, s, i, b, w, d, last, casts)
    requires s.ft.state == Bc5
    ensures ClosingNext(c, s, i, d, last, casts)
  {
    hide Sleeping, Requesting, Moving, Aborting, MxNext, Retiring, Fresh, Length, Within;
  }

  lemma ClosingReturn(c: Config, s: System, i: In, b: nat, w: nat, d: nat, last: nat, casts: nat)
    requires Ready(c, s, i, b, w, d, last, casts)
    requires s.ft.state == Bc6
    ensures ClosingNext(c, s, i, d, last, casts)
  {
    hide Sleeping, Requesting, Moving, Aborting, MxNext, Retiring, Fresh, Length, Within;
  }

  lemma ClosingStep(c: Config, s: System, i: In, b: nat, w: nat, d: nat, last: nat, casts: nat)
    requires Plain(c) && Core(c, s, b, w, d) && Allowed(s, i) && Closing(c, s, last, casts)
    requires s.ft.state == Iddle ==> casts == 0
    ensures ClosingNext(c, s, i, d, last, casts)
  {
    hide Cycle, Closing, ClosingNext, Allowed, Final, Fresh, Prepared, Aimed, Length, Facts, Plain, Retiring;
    CoreFacts(c, s, b, w, d);
    match s.ft.state
    case Iddle | Wait0 | Wait2 => ClosingStart(c, s, i, b, w, d, last, casts);
    case Brq1 | Brq2 | Brq3 | Brq9 => ClosingRequest(c, s, i, b, w, d, last, casts);
    case Adr1 | Adr2 => ClosingMove(c, s, i, b, w, d, last, casts);
    case Dat1 => ClosingWord(c, s, i, b, w, d, last, casts);
    case Dat01 | Dat2 => ClosingLastWord(c, s, i, b, w, d, last, casts);
    case End1 | End2 => ClosingTurn(c, s, i, b, w, d, last, casts);
    case Bc1 | Bc2 => ClosingBroadcast(c, s, i, b, w, d, last, casts);
    case Bc3 => ClosingGranted(c, s, i, b, w, d, last, casts);
    case Bc4 => ClosingCast(c, s, i, b, w, d, last, casts);
    case Bc5 => ClosingRest(c, s, i, b, w, d, last, casts);
    case Bc6 => ClosingReturn(c, s, i, b, w, d, last, casts);
    case _ =>
  }

  // ---------------------------------------------------------------------------
  // Any inputs and any descriptors
  // ---------------------------------------------------------------------------

  /** At most one descriptor runs, and none while the engine sleeps or resets. */
  predicate Exclusive(s: FtState, run0: bool, run1: bool) {
    && !(run0 && run1)
    && (s in {Iddle, Wait0, Wait1, Bc5, Bc6, Abrt2, Abrt3, Rst1, Rst3} ==> !run0 && !run1)
  }

  /** The first bus is requested while it is used, and otherwise released except in the
      cycle that gives it up after an error. */
  predicate Holding(s: FtState, ebft: bool) {
    && (s in {Brq3, Adr1, Adr2, Dat1, Dat01, Dat11, Dat2, Bc2, Bc4} ==> ebft)
    && (ebft ==> s in {Brq3, Adr1, Adr2, Dat1, Dat01, Dat11, Dat2, Bc2, Bc4, Abrt1})
  }

  predicate Orderly(r: FtRegs) {
    Exclusive(r.state, r.run0, r.run1) && Holding(r.state, r.ebft)
  }

  /** The same of the flags that a cycle produces. */
  predicate OrderlyAfter(r: FtRegs, step: (FtState, Out)) {
    var o := step.1;
    && Exclusive(step.0, (Init0 in o || r.run0) && DmaDone !in o, (Init1 in o || r.run1) && DmaDone !in o)
    && Holding(step.0, (EbRq in o || r.ebft) && EbEof !in o)
  }

  lemma OrderlySleeping(c: Config, r: FtRegs, go: GoRegs, i: In, mx: MxOut)
    requires Orderly(r) && r.state in {Iddle, Wait0, Wait1, Wait2, Wait3, Wait4, Wait9}
    ensures OrderlyAfter(r, Sleeping(c, r, go, i, mx))
  {
  }

  lemma OrderlyRequesting(c: Config, r: FtRegs, go: GoRegs, i: In, mx: MxOut)
    requires Orderly(r) && r.state in {Brq1, Brq2, Brq3, Brq9}
    ensures OrderlyAfter(r, Requesting(r, i, mx))
  {
  }

  lemma OrderlyMoving(c: Config, r: FtRegs, go: GoRegs, i: In, mx: MxOut)
    requires Orderly(r) && r.state in {Adr1, Adr2, Dat01, Dat1, Dat11, Dat2}
    ensures OrderlyAfter(r, Moving(c, r, i, mx))
  {
  }

  lemma OrderlyEnding(c: Config, r: FtRegs, go: GoRegs, i: In, mx: MxOut)
    requires Orderly(r) && r.state in {End1, End2, Bc1, Bc2, Bc3, Bc4, Bc5, Bc6}
    ensures OrderlyAfter(r, Ending(c, r, i, mx))
  {
  }

  lemma OrderlyAborting(c: Config, r: FtRegs, go: GoRegs, i: In, mx: MxOut)
    requires Orderly(r) && r.state in {Abrt1, Abrt2, Abrt3, Rst1, Rst2, Rst3}
    ensures OrderlyAfter(r, Aborting(c, r, mx))
  {
  }

  lemma OrderlyControl(c: Config, r: FtRegs, go: GoRegs, i: In, mx: MxOut)
    requires Orderly(r)
    ensures OrderlyAfter(r, Control(c, r, go, i, mx))
  {
    hide OrderlyAfter, Orderly, Sleeping, Requesting, Moving, Ending, Aborting;
    match r.state
    case Iddle | Wait0 | Wait1 | Wait2 | Wait3 | Wait4 | Wait9 => OrderlySleeping(c, r, go, i, mx);
    case Brq1 | Brq2 | Brq3 | Brq9 => OrderlyRequesting(c, r, go, i, mx);
    case Adr1 | Adr2 | Dat01 | Dat1 | Dat11 | Dat2 => OrderlyMoving(c, r, go, i, mx);
    case End1 | End2 | Bc1 | Bc2 | Bc3 | Bc4 | Bc5 | Bc6 => OrderlyEnding(c, r, go, i, mx);
    case Abrt1 | Abrt2 | Abrt3 | Rst1 | Rst2 | Rst3 => OrderlyAborting(c, r, go, i, mx);
  }

  /** For every input, errors and commands included, the two run flags exclude each other
      and the bus request follows the state. */
  lemma OrderlyStep(c: Config, s: System, i: In)
    requires Orderly(s.ft)
    ensures Orderly(Cycle(c, s, i).ft)
  {
    hide Control, MxNext, GoNext, Within, Inc;
    OrderlyControl(c, s.ft, s.go, i, MxSignals(s.mx.state, i, Aborts(s.ft.state)));
  }

  /** The source bus is requested exactly from the request to the last cycle of a burst. */
  predicate SourceHeld(m: MxRegs) {
    m.ebmx <==> m.state in {MxBrq1, MxAdr1, MxAdr2, MxRd1, MxWr1, MxWr2}
  }

  lemma SourceHeldStep(m: MxRegs, i: In, s: FtState, mif: bool, o: Out)
    requires SourceHeld(m)
    ensures SourceHeld(MxNext(m, i, s, mif, o))
  {
  }

  /** The last step of a descriptor that nothing follows: its broadcast, or an abort that it
      asked for. */
  predicate Leaving(c: Config, r: FtRegs) {
    || (r.state == Bc4 && !(r.run0 && c.desc0.link) && !(r.run1 && c.desc1.link))
    || (r.state == Abrt1 && (c.desc0.abrt || c.desc1.abrt))
  }

  lemma DoneReleases(c: Config, s: System, i: In)
    requires DmaDone in Outcome(c, s, i).1
    ensures
      var t := Cycle(c, s, i);
      !t.ft.run0 && !t.ft.run1 && !t.ft.mif && t.go == GoNext(s.go, i, s.ft.run0, s.ft.run1)
  {
    hide Outcome, MxNext, GoNext, Within, Inc;
  }

  lemma GoFollows(c: Config, s: System, i: In)
    ensures Cycle(c, s, i).go == GoNext(s.go, i, s.ft.run0, s.ft.run1)
  {
  }

  /** Three cycles after a run has been ended, by a broadcast, an abort or a reset, its GO
      bit is clear, whatever happens and whatever software writes meanwhile. */
  lemma GoClearedAfterRun(c: Config, s: System, i1: In, i2: In, i3: In)
    requires DmaDone in Outcome(c, s, i1).1
    ensures
      var t := Cycle(c, Cycle(c, Cycle(c, s, i1), i2), i3);
      (s.ft.run0 ==> !t.go.go0) && (s.ft.run1 ==> !t.go.go1)
  {
    hide Cycle, Outcome;
    DoneReleases(c, s, i1);
    GoFollows(c, Cycle(c, s, i1), i2);
    GoFollows(c, Cycle(c, Cycle(c, s, i1), i2), i3);
  }

  /** A transfer that nothing follows, ended by its broadcast or aborted, leaves the engine
      asleep three cycles later, and the GO bit of its descriptor clear, for every
      input. */
  lemma GoClearedOnReturn(c: Config, s: System, i1: In, i2: In, i3: In)
    requires Leaving(c, s.ft)
    ensures
      var t := Cycle(c, Cycle(c, Cycle(c, s, i1), i2), i3);
      && t.ft.state == Iddle && !t.ft.run0 && !t.ft.run1
      && (s.ft.run0 ==> !t.go.go0) && (s.ft.run1 ==> !t.go.go1)
  {
    hide Cycle, Outcome;
    var s1 := Cycle(c, s, i1);
    var s2 := Cycle(c, s1, i2);
    if s.ft.state == Bc4 {
      ReturnSteps(c, s, i1);
      ReturnSteps(c, s1, i2);
      ReturnSteps(c, s2, i3);
    } else {
      AbortSteps(c, s, i1);
      AbortSteps(c, s1, i2);
      AbortSteps(c, s2, i3);
    }
    LeavingIsDone(c, s, i1);
    GoClearedAfterRun(c, s, i1, i2, i3);
  }

  lemma LeavingIsDone(c: Config, s: System, i: In)
    requires Leaving(c, s.ft)
    ensures DmaDone in Outcome(c, s, i).1
  {
    hide Sleeping, Requesting, Moving;
  }

  lemma AbortSteps(c: Config, s: System, i: In)
    requires s.ft.state in {Abrt1, Abrt2, Abrt3} && (c.desc0.abrt || c.desc1.abrt)
    requires s.ft.state == Abrt1 || (!s.ft.run0 && !s.ft.run1 && !s.ft.mif)
    ensures
      var t := Cycle(c, s, i);
      && t.ft.state == (match s.ft.state case Abrt1 => Abrt2 case Abrt2 => Abrt3 case _ => Iddle)
      && !t.ft.run0 && !t.ft.run1 && !t.ft.mif
  {
    hide Sleeping, Requesting, Moving, Ending, MxNext, GoNext, Within, Inc;
  }

  lemma ReturnSteps(c: Config, s: System, i: In)
    requires s.ft.state in {Bc4, Bc5, Bc6}
    ensures
      var t := Cycle(c, s, i);
      && t.go == GoNext(s.go, i, s.ft.run0, s.ft.run1)
      && (s.ft.state == Bc5 ==> t.ft.state == Bc6) && (s.ft.state == Bc6 ==> t.ft.state == Iddle)
      && (s.ft.state == Bc4 && !(s.ft.run0 && c.desc0.link) && !(s.ft.run1 && c.desc1.link) ==> t.ft.state == Bc5)
      && (s.ft.state == Bc4 ==> !t.ft.run0 && !t.ft.run1)
      && (s.ft.state != Bc4 ==> t.ft.run0 == s.ft.run0 && t.ft.run1 == s.ft.run1)
  {
    hide Sleeping, Requesting, Moving, Aborting, MxNext, GoNext, Within, Inc;
  }

  // ---------------------------------------------------------------------------
  // Commands and errors, for every configuration
  // ---------------------------------------------------------------------------

  /** The engine wakes exactly for a reset, a GO bit or a go command, and takes a descriptor
      unless it is to be aborted. */
  lemma WakesExactly(c: Config, s: System, i: In)
    ensures
      var t := Cycle(c, s, i).ft;
      && (s.ft.state == Iddle ==>
            && (t.state == Iddle <==> !i.cmdReset && !s.go.go0 && !i.cmdGo)
            && (t.state == Rst1 <==> i.cmdReset) && t.state in {Iddle, Wait0, Rst1})
      && (s.ft.state == Wait0 ==>
            && (t.state == Abrt1 <==> c.desc0.abrt || i.cmdAbort)
            && (t.state == Wait2 <==> !c.desc0.abrt && !i.cmdAbort && (s.go.go0 || i.cmdGo))
            && t.state in {Wait0, Wait2, Abrt1} && (t.state == Wait2 ==> t.run0))
      && (s.ft.state == Wait1 ==>
            && (t.state == Abrt1 <==> c.desc1.abrt) && (t.state == Wait2 <==> !c.desc1.abrt && s.go.go1)
            && t.state in {Wait1, Wait2, Abrt1} && (t.state == Wait2 ==> t.run1))
  {
    hide Requesting, Moving, Ending, MxNext, GoNext, Within, Inc;
  }

  /** A burst is given up exactly for an error: a refusal without retry while addressing, an
      error of either bus afterwards, or a slave that is not ready in a data phase. */
  lemma FatalExactly(c: Config, s: System, i: In)
    requires !s.ft.fifo
    ensures
      var t, err := Cycle(c, s, i).ft.state, MxSignals(s.mx.state, i, false).err;
      && (s.ft.state == Adr1 ==> (t == Abrt1 <==> i.ebErr && !i.ebDk) && (t == Brq9 <==> i.ebErr && i.ebDk))
      && (s.ft.state == Adr2 ==> (t == Abrt1 <==> i.ebErr || err))
      && (s.ft.state == Dat1 ==> (t == Abrt1 <==> i.ebErr || !i.ebDk || err))
  {
    hide Sleeping, Requesting, Ending, Aborting, MxNext, GoNext, Within, Inc;
  }

  /** The source master while the engine aborts: never busier, and done after two cycles. */
  lemma AbortQuits(m: MxRegs, i1: In, i2: In, mif: bool, o1: Out, o2: Out)
    requires MxBrq !in o1 && MxRead !in o1 && MxBrq !in o2 && MxRead !in o2
    ensures
      var t := MxNext(m, i1, Abrt1, mif, o1);
      MxNext(t, i2, Abrt2, false, o2).state in {MxIddle, MxAbrt1}
  {
    hide Latch;
  }

  lemma AbortOutcome(c: Config, s: System, i: In)
    requires s.ft.state == Abrt1 || s.ft.state == Abrt2
    ensures
      Outcome(c, s, i) == if s.ft.state == Abrt1 then (Abrt2, {EbEof, DmaDone})
                          else (if c.desc0.abrt || c.desc1.abrt then Abrt3 else Bc1, {})
  {
    hide Sleeping, Requesting, Moving, Ending;
  }

  /** After an error both buses are released, the run is over, and without an abort bit it is
      reported by a broadcast. */
  lemma ErrorReleases(c: Config, s: System, i1: In, i2: In)
    requires s.ft.state == Abrt1 && SourceHeld(s.mx)
    ensures
      var t := Cycle(c, s, i1);
      var u := Cycle(c, t, i2);
      && !t.ft.ebft && !t.ft.run0 && !t.ft.run1 && !u.mx.ebmx
      && u.ft.state == (if c.desc0.abrt || c.desc1.abrt then Abrt3 else Bc1)
  {
    hide Outcome, MxNext, GoNext, Within, Inc, SourceHeld;
    AbortOutcome(c, s, i1);
    var t := Cycle(c, s, i1);
    AbortOutcome(c, t, i2);
    SourceHeldStep(s.mx, i1, s.ft.state, s.ft.mif, Outcome(c, s, i1).1);
    SourceHeldStep(t.mx, i2, t.ft.state, t.ft.mif, Outcome(c, t, i2).1);
    AbortQuits(s.mx, i1, i2, s.ft.mif, Outcome(c, s, i1).1, Outcome(c, t, i2).1);
    HeldMeans(Cycle(c, t, i2).mx);
  }

  lemma HeldMeans(m: MxRegs)
    requires SourceHeld(m)
    ensures m.state == MxIddle || m.state == MxAbrt1 ==> !m.ebmx
  {
  }

  // ---------------------------------------------------------------------------
  // Linked descriptors
  // ---------------------------------------------------------------------------

  /** The descriptor that follows: the other one, when the one that runs is linked. */
  predicate Links(c: Config, r: FtRegs) {
    r.state == Bc4 && ((r.run0 && !r.run1 && c.desc0.link) || (r.run1 && !r.run0 && c.desc1.link))
  }

  lemma LinkCloses(c: Config, s: System, i: In)
    requires Links(c, s.ft)
    ensures
      var t := Cycle(c, s, i);
      && t.ft.state == (if s.ft.run0 then Wait1 else Wait0) && !t.ft.run0 && !t.ft.run1 && !t.ft.fifo && !t.ft.mif
  {
    hide Sleeping, Requesting, Moving, Aborting, MxNext, GoNext, Within, Inc;
  }

  /** Descriptor `other` is taken. */
  lemma LinkAccepts(c: Config, s: System, i: In, other: bool)
    requires s.ft.state == (if other then Wait1 else Wait0) && !s.ft.run0 && !s.ft.run1 && !s.ft.fifo && !s.ft.mif
    requires if other then s.go.go1 && !c.desc1.abrt else s.go.go0 && !c.desc0.abrt && !i.cmdAbort
    requires !(if other then c.desc1 else c.desc0).fifo && !(if other then c.desc1 else c.desc0).mif
    ensures
      var t := Cycle(c, s, i);
      t.ft.state == Wait2 && t.ft.run0 == !other && t.ft.run1 == other && !t.ft.fifo && !t.ft.mif
  {
    hide Requesting, Moving, Ending, Aborting, MxNext, GoNext, Within, Inc;
  }

  lemma LinkLoads(c: Config, s: System, i: In)
    requires s.ft.state == Wait2 && !s.ft.fifo && !s.ft.mif
    ensures
      var t, d := Cycle(c, s, i), if s.ft.run0 then c.desc0 else c.desc1;
      && t.ft.state == Brq1 && t.ft.dacnt == 0 && t.ft.macnt == d.source && t.ft.maseg == d.segment
      && t.ft.run0 == s.ft.run0 && t.ft.run1 == s.ft.run1
  {
    hide Requesting, Moving, Ending, Aborting, MxNext, GoNext, Within, Inc;
  }

  lemma LinkSignals(c: Config, s: System, i: In)
    requires s.ft.state == Brq1 || s.ft.state == Brq2
    ensures
      var (t, o) := Outcome(c, s, i);
      && (s.ft.state == Brq1 ==> t == Brq2 && o == {BcLd})
      && (s.ft.state == Brq2 ==> DbLd in o && BcLd !in o && BcEn !in o && MaLd !in o && MaEn !in o)
  {
    hide Sleeping, Moving, Ending, Aborting, MxNext, GoNext, Within, Inc;
  }

  lemma LinkReloads(c: Config, s: System, i: In)
    requires s.ft.state == Brq1
    ensures
      var t := Cycle(c, s, i);
      && t.ft.state == Brq2 && t.ft.bcnt == c.payload && t.ft.dacnt == s.ft.dacnt
      && t.ft.macnt == s.ft.macnt && t.ft.maseg == s.ft.maseg && t.ft.run0 == s.ft.run0 && t.ft.run1 == s.ft.run1
  {
    hide Outcome, MxNext, GoNext, Within, Inc;
    LinkSignals(c, s, i);
  }

  lemma LinkLatches(c: Config, s: System, i: In)
    requires s.ft.state == Brq2
    ensures
      var t, d := Cycle(c, s, i), if s.ft.run0 then c.desc0 else c.desc1;
      && t.ft.bcnt == s.ft.bcnt && t.ft.daburst == (d.dest + 8 * s.ft.dacnt) % ADDRESS
      && t.ft.macnt == s.ft.macnt && t.ft.maseg == s.ft.maseg
  {
    hide Outcome, MxNext, GoNext, Within, Inc;
    LinkSignals(c, s, i);
  }

  lemma LinkAims(c: Config, s: System, i1: In, i2: In)
    requires s.ft.state == Brq1
    ensures
      var t, d := Cycle(c, Cycle(c, s, i1), i2), if s.ft.run0 then c.desc0 else c.desc1;
      && t.ft.bcnt == c.payload && t.ft.daburst == (d.dest + 8 * s.ft.dacnt) % ADDRESS
      && t.ft.macnt == s.ft.macnt && t.ft.maseg == s.ft.maseg
  {
    hide Cycle;
    LinkReloads(c, s, i1);
    LinkLatches(c, Cycle(c, s, i1), i2);
  }

  /** After the broadcast of a linked descriptor the other one follows, when its GO bit is
      set and stays set: its first burst is aimed at its own destination, in payloads, and
      reads from its own source. */
  lemma LinkedFollows(c: Config, s: System, i: seq<In>)
    requires Links(c, s.ft) && |i| == 5
    requires
      var next, t := if s.ft.run0 then c.desc1 else c.desc0, Cycle(c, s, i[0]);
      && !next.fifo && !next.mif && !next.abrt && (if s.ft.run0 then t.go.go1 else t.go.go0 && !i[1].cmdAbort)
    ensures
      var next := if s.ft.run0 then c.desc1 else c.desc0;
      var t := Cycle(c, Cycle(c, Cycle(c, s, i[0]), i[1]), i[2]);
      var u := Cycle(c, Cycle(c, t, i[3]), i[4]);
      && t.ft.state == Brq1 && t.ft.run0 == !s.ft.run0 && t.ft.run1 == !s.ft.run1 && t.ft.dacnt == 0
      && u.ft.bcnt == c.payload && u.ft.daburst == next.dest % ADDRESS
      && u.ft.macnt == next.source && u.ft.maseg == next.segment
  {
    hide Cycle;
    LinkCloses(c, s, i[0]);
    var s1 := Cycle(c, s, i[0]);
    LinkAccepts(c, s1, i[1], s.ft.run0);
    var s2 := Cycle(c, s1, i[1]);
    LinkLoads(c, s2, i[2]);
    LinkAims(c, Cycle(c, s2, i[2]), i[3], i[4]);
  }
}
