/** A whole transfer: descriptor #0 in plain memory mode, without bus errors, through any
    number of stalls, refusals and retries. */
module FtDmaRuns {
  import opened FtDma

  predicate Plain(c: Config) {
    var d := c.desc0;
    && !d.link && !d.abrt && !d.fifo && !d.mif
    && 1 <= d.count < COUNT && 2 <= c.payload <= 255
    && d.dest + 8 * d.count <= ADDRESS && d.source + d.count <= OFFSET
  }

  /** No bus error, no abort or reset command, and software leaves `cmd_go` low. */
  predicate Allowed(s: System, i: In) {
    && !i.cmdReset && !i.cmdGo && !i.cmdAbort
    && (s.ft.state == Adr1 && i.ebErr ==> i.ebDk)
    && (s.ft.state == Adr2 ==> !i.ebErr)
    && (s.ft.state == Dat1 ==> !i.ebErr && i.ebDk)
    && (s.mx.state == MxAdr2 ==> !i.eb2Err)
    && (s.mx.state == MxRd1 ==> i.eb2Dk)
  }

  // ---------------------------------------------------------------------------
  // The two machines in lockstep, and the counters
  // ---------------------------------------------------------------------------

  predicate Fresh(c: Config, r: FtRegs) {
    && (r.daendm2 <==> Within(r.dacnt, c.desc0.count, 2))
    && (r.daendm1 <==> Within(r.dacnt, c.desc0.count, 1))
  }

  /** A burst is prepared: its counters are loaded and nothing of it has moved. */
  predicate Prepared(c: Config, r: FtRegs) {
    r.bcnt == c.payload && r.pauscnt == 0 && r.ebadrs && Fresh(c, r)
  }

  predicate Aimed(c: Config, r: FtRegs) {
    Prepared(c, r) && r.daburst == c.desc0.dest + 8 * r.dacnt
  }

  /** How far the source master may still be from idle during a pause. */
  predicate Retiring(m: MxState, pauscnt: nat) {
    || m == MxIddle
    || (pauscnt <= 2 && m == MxAbrt1)
    || (pauscnt <= 1 && m == MxAdr1)
    || (pauscnt == 0 && m == MxBrq1)
  }

  predicate AtBoundary(r: FtRegs, b: nat, w: nat, d: nat) { b == w == d == r.dacnt }

  predicate IsIdle(s: System) {
    && s.ft.state == Iddle && !s.ft.run0 && !s.ft.run1 && !s.ft.fifo && !s.ft.mif
    && !s.ft.ebft && !s.ft.ebbc && s.mx.state == MxIddle && !s.mx.ebmx
    && !s.go.rund0 && !s.go.done0
  }

  /** `b` words have been put on the first bus, `w` sampled on the second, and `d` belong
      to finished bursts. */
  predicate Core(c: Config, s: System, b: nat, w: nat, d: nat) {
    var r, m, n := s.ft, s.mx.state, c.desc0.count;
    && !r.run1 && !r.fifo && !r.mif
    && (r.run0 <==> !(r.state == Iddle || r.state == Wait0 || r.state == Bc5 || r.state == Bc6))
    && match r.state
       case Iddle | Wait0 | Wait2 =>
         m == MxIddle && (b == w == d == 0 || (r.state == Iddle && b == w == d == n && Final(c, r.sts0)))
       case Brq1 => m == MxIddle && AtBoundary(r, b, w, d) && d < n
       case Brq2 => m == MxIddle && AtBoundary(r, b, w, d) && d < n && Prepared(c, r)
       case Brq3 => (m == MxIddle || m == MxBrq1) && AtBoundary(r, b, w, d) && d < n && Aimed(c, r)
       case Brq9 => Retiring(m, r.pauscnt) && r.pauscnt <= 8 && AtBoundary(r, b, w, d) && d < n
       case Adr1 => m == MxAdr1 && AtBoundary(r, b, w, d) && d < n && Aimed(c, r)
       case Adr2 => (m == MxAdr2 || m == MxRd1) && AtBoundary(r, b, w, d) && d < n && Aimed(c, r)
       case Dat1 =>
         && m == MxRd1 && !r.ebadrs && d < r.dacnt && b + 1 == w == r.dacnt
         && r.bcnt + r.dacnt == c.payload + d && r.bcnt >= 1 && r.dacnt < n && (r.daendm2 <==> r.dacnt + 1 >= n)
       case Dat2 =>
         m == MxIddle && !r.ebadrs && b + 1 == w == r.dacnt && r.dacnt == d + Length(c, d) && Length(c, d) >= 2
       case Dat01 => m == MxIddle && !r.ebadrs && b == d && b + 1 == w == n && r.dacnt == n
       case End1 => m == MxIddle && AtBoundary(r, b, w, d) && d <= n && (r.daendall <==> d == n)
       case End2 | Bc1 | Bc2 | Bc3 | Bc4 => m == MxIddle && b == w == d == n && Final(c, r.dacnt)
       case Bc5 | Bc6 => m == MxIddle && b == w == d == n && Final(c, r.sts0)
       case _ => false
  }

  /** The number of words in the burst that starts after `d` words. */
  function Length(c: Config, d: nat): nat {
    if d + c.payload <= c.desc0.count then c.payload else if d <= c.desc0.count then c.desc0.count - d else 0
  }

  predicate Final(c: Config, dacnt: nat) {
    dacnt == c.desc0.count || dacnt == Inc(c.desc0.count, COUNT)
  }

  /** The states of a data phase, and those that end a burst. */
  predicate IsBeat(s: FtState) { s == Dat1 || s == Dat01 || s == Dat2 }

  predicate EndsBurst(s: FtState) { s == Dat01 || s == Dat2 }

  /** The counts after a cycle. */
  function BeatsAfter(s: System, b: nat): nat { if IsBeat(s.ft.state) then b + 1 else b }

  function SamplesAfter(s: System, w: nat): nat { if s.mx.state == MxRd1 then w + 1 else w }

  function DoneAfter(s: System, b: nat, d: nat): nat { if EndsBurst(s.ft.state) then b + 1 else d }

  predicate CoreNext(c: Config, s: System, i: In, b: nat, w: nat, d: nat) {
    Core(c, Cycle(c, s, i), BeatsAfter(s, b), SamplesAfter(s, w), DoneAfter(s, b, d))
  }

  // ---------------------------------------------------------------------------
  // Progress
  // ---------------------------------------------------------------------------

  function Left(c: Config, dacnt: nat): nat {
    if dacnt <= c.desc0.count then c.desc0.count - dacnt else 0
  }

  /** Cycles still needed when nothing stalls or refuses, at most. */
  function Measure(c: Config, s: System): nat {
    var r := s.ft;
    match r.state
    case Iddle => 16 * c.desc0.count + 11
    case Wait0 => 16 * c.desc0.count + 10
    case Wait2 => 16 * c.desc0.count + 9
    case Brq1 => 16 * Left(c, r.dacnt) + 8
    case Brq2 => 16 * Left(c, r.dacnt) + 7
    case Brq3 => 16 * Left(c, r.dacnt) + 6
    case Brq9 => 16 * Left(c, r.dacnt) + 9 + (if r.pauscnt <= 8 then 8 - r.pauscnt else 0)
    case Adr1 => 16 * Left(c, r.dacnt) + 5
    case Adr2 => 16 * Left(c, r.dacnt) + (if s.mx.state == MxRd1 then 3 else 4)
    case Dat1 => 16 * Left(c, r.dacnt) + 10
    case Dat2 => 16 * Left(c, r.dacnt) + 9
    case End1 => 16 * Left(c, r.dacnt) + 8
    case Dat01 => 7
    case End2 => 6
    case Bc1 => 5
    case Bc2 => 4
    case Bc3 => 6
    case Bc4 => 3
    case Bc5 => 2
    case Bc6 => 1
    case _ => 0
  }

  /** A cycle in which somebody else makes the engine wait. */
  predicate Stalls(s: System, i: In) {
    match s.ft.state
    case Iddle | Wait0 => !s.go.go0
    case Brq2 | Bc1 => i.ebBmx
    case Adr1 => !i.ebDk
    case Adr2 => s.mx.state == MxAdr2 && !i.eb2Dk
    case _ => false
  }

  /** A cycle in which a bus is refused or the destination asks for a retry. */
  predicate Refused(s: System, i: In) {
    match s.ft.state
    case Brq3 => !(i.ebBft && s.mx.state == MxBrq1 && i.eb2Bg)
    case Adr1 => i.ebErr && i.ebDk
    case Bc2 => !i.ebBft
    case _ => false
  }

  predicate Progresses(c: Config, s: System, i: In) {
    var m, m' := Measure(c, s), Measure(c, Cycle(c, s, i));
    if Stalls(s, i) then m' <= m else if Refused(s, i) then m' <= m + 12 else m' < m
  }

  // ---------------------------------------------------------------------------
  // What a cycle does, state by state
  // ---------------------------------------------------------------------------

  /** An idle source master that is not called stays idle. */
  lemma MxRests(m: MxRegs, i: In, s: FtState, mif: bool, o: Out)
    requires m.state == MxIddle && MxBrq !in o && !mif && s != Wait4 && s != Rst2
    ensures MxNext(m, i, s, mif, o).state == MxIddle
  {
  }

  /** The registers that the counters' commands do not touch. */
  predicate SameFlags(c: Config, r: FtRegs, n: FtRegs) {
    && n.run0 == r.run0 && n.run1 == r.run1 && n.fifo == r.fifo && n.mif == r.mif
    && (r.run0 ==>
          && n.daendm2 == Within(r.dacnt, c.desc0.count, 2) && n.daendm1 == Within(r.dacnt, c.desc0.count, 1)
          && n.daendall == Within(r.dacnt, c.desc0.count, 0))
  }

  /** A cycle without commands to the counters. */
  lemma CountersRest(c: Config, r: FtRegs, next: FtState, o: Out)
    requires o !! {Init0, Init1, DmaDone, BcLd, PausEn, BcEn, DaClr, DaEn, EbDat}
    ensures
      var n, d := FtNext(c, r, next, o), if r.run0 then c.desc0 else c.desc1;
      && n.state == next && SameFlags(c, r, n) && n.dacnt == r.dacnt && n.bcnt == r.bcnt && n.pauscnt == r.pauscnt
      && n.ebadrs == r.ebadrs
      && n.daburst == (if DbLd in o then (d.dest + 8 * r.dacnt) % ADDRESS else r.daburst)
  {
    hide Within, Inc;
  }

  /** A cycle that counts a word. */
  lemma CountersStep(c: Config, r: FtRegs, next: FtState, o: Out)
    requires o !! {Init0, Init1, DmaDone, BcLd, PausEn, DaClr} && BcEn in o && DaEn in o
    ensures
      var n := FtNext(c, r, next, o);
      && n.state == next && SameFlags(c, r, n) && n.dacnt == Inc(r.dacnt, COUNT)
      && n.bcnt == (if r.bcnt == 0 then 255 else r.bcnt - 1) && n.ebadrs == (r.ebadrs && EbDat !in o)
  {
    hide Within, Inc;
  }

  lemma RequestOutcome(c: Config, s: System, i: In)
    requires s.ft.state == Brq2
    ensures Outcome(c, s, i) == if i.ebBmx then (Brq2, {DbLd}) else (Brq3, {DbLd, EbRq, MxBrq})
  {
    hide Sleeping, Moving, Ending, Aborting;
  }

  lemma GrantOutcome(c: Config, s: System, i: In)
    requires s.ft.state == Brq3
    ensures
      var bg := MxSignals(s.mx.state, i, false).bg;
      Outcome(c, s, i) == if i.ebBft && bg then (Adr1, {MxBrq, Strobe}) else (Brq9, {MxBrq, EbEof})
  {
    hide Sleeping, Moving, Ending, Aborting;
  }

  lemma AddressOutcome(c: Config, s: System, i: In)
    requires Allowed(s, i) && s.ft.state == Adr1
    ensures
      Outcome(c, s, i) == if i.ebErr then (Brq9, {Strobe, EbEof})
                          else if i.ebDk then (Adr2, {Strobe, MxRead}) else (Adr1, {Strobe})
  {
    hide Sleeping, Requesting, Ending, Aborting;
  }

  lemma WordOutcome(c: Config, s: System, i: In)
    requires Allowed(s, i) && s.ft.state == Adr2 && s.mx.state == MxRd1
    ensures
      Outcome(c, s, i) == if s.ft.daendm1 then (Dat01, {Strobe, MxRead, EbDat, BcEn, DaEn, MaEn, MxEnd})
                          else (Dat1, {Strobe, MxRead, EbDat, BcEn, DaEn, MaEn})
  {
    hide Sleeping, Requesting, Ending, Aborting;
  }

  lemma WordsOutcome(c: Config, s: System, i: In)
    requires Allowed(s, i) && s.ft.state == Dat1 && s.mx.state == MxRd1 && !s.ft.fifo
    ensures
      Outcome(c, s, i) == if s.ft.bcnt == 1 || s.ft.daendm2 then (Dat2, {BcEn, DaEn, MaEn, MxEnd})
                          else (Dat1, {BcEn, DaEn, MaEn})
  {
    hide Sleeping, Requesting, Ending, Aborting;
  }

  lemma OnlyWordOutcome(c: Config, s: System, i: In)
    requires s.ft.state == Dat01
    ensures Outcome(c, s, i) == (End2, {BcEn, DaEn, MaEn, Eof, EbEof})
  {
    hide Sleeping, Requesting, Ending, Aborting;
  }

  lemma TurnOutcome(c: Config, s: System, i: In)
    requires s.ft.state == End1 && !s.ft.fifo
    ensures Outcome(c, s, i) == if s.ft.daendall then (End2, {}) else (Brq2, {BcLd})
  {
    hide Sleeping, Requesting, Moving, Aborting;
  }

  lemma FinishOutcome(c: Config, s: System, i: In)
    requires s.ft.state == End2 && !s.ft.mif
    ensures Outcome(c, s, i) == (Bc1, {Irq})
  {
    hide Sleeping, Requesting, Moving, Aborting;
  }

  lemma BroadcastOutcome(c: Config, s: System, i: In)
    requires s.ft.state == Bc2
    ensures Outcome(c, s, i) == if i.ebBft then (Bc4, {Strobe, Eof}) else (Bc3, {EbEof})
  {
    hide Sleeping, Requesting, Moving, Aborting;
  }

  lemma CloseOutcome(c: Config, s: System, i: In)
    requires s.ft.state == Bc4 && s.ft.run0 && !c.desc0.link && !s.ft.run1
    ensures Outcome(c, s, i) == (Bc5, {Strobe, Eof, IrqEnd, EbEof, DmaDone})
  {
    hide Sleeping, Requesting, Moving, Aborting;
  }

  // ---------------------------------------------------------------------------
  // Every cycle keeps the invariant
  // ---------------------------------------------------------------------------

  lemma CoreIdle(c: Config, s: System, i: In, b: nat, w: nat, d: nat)
    requires Plain(c) && Core(c, s, b, w, d) && Allowed(s, i)
    requires s.ft.state == Iddle
    requires d == 0
    ensures CoreNext(c, s, i, b, w, d)
  {
    hide GoNext, Requesting, Moving, Ending, Aborting, Retiring, Final;
  }

  lemma CoreStart(c: Config, s: System, i: In, b: nat, w: nat, d: nat)
    requires Plain(c) && Core(c, s, b, w, d) && Allowed(s, i)
    requires s.ft.state == Wait2
    requires d == 0
    ensures CoreNext(c, s, i, b, w, d)
  {
    hide GoNext, Requesting, Moving, Ending, Aborting, Retiring, Final;
  }

  lemma CoreAccept(c: Config, s: System, i: In, b: nat, w: nat, d: nat)
    requires Plain(c) && Core(c, s, b, w, d) && Allowed(s, i)
    requires s.ft.state == Wait0
    ensures CoreNext(c, s, i, b, w, d)
  {
    hide GoNext, Requesting, Moving, Ending, Aborting, Prepared;
  }

  lemma CorePrepare(c: Config, s: System, i: In, b: nat, w: nat, d: nat)
    requires Plain(c) && Core(c, s, b, w, d) && Allowed(s, i)
    requires s.ft.state == Brq1
    ensures CoreNext(c, s, i, b, w, d)
  {
    hide GoNext, Sleeping, Moving, Ending, Aborting, Final, Length;
  }

  lemma CoreRequest(c: Config, s: System, i: In, b: nat, w: nat, d: nat)
    requires Plain(c) && Core(c, s, b, w, d) && Allowed(s, i)
    requires s.ft.state == Brq2
    ensures CoreNext(c, s, i, b, w, d)
  {
    hide GoNext, Outcome, FtNext, Final, Retiring;
    RequestOutcome(c, s, i);
    CountersRest(c, s.ft, Outcome(c, s, i).0, Outcome(c, s, i).1);
  }

  lemma CoreGrant(c: Config, s: System, i: In, b: nat, w: nat, d: nat)
    requires Plain(c) && Core(c, s, b, w, d) && Allowed(s, i)
    requires s.ft.state == Brq3 && i.ebBft && MxSignals(s.mx.state, i, false).bg
    ensures CoreNext(c, s, i, b, w, d)
  {
    hide GoNext, Outcome, FtNext, Final, Within, Retiring;
    GrantOutcome(c, s, i);
    CountersRest(c, s.ft, Outcome(c, s, i).0, Outcome(c, s, i).1);
  }

  lemma CoreRefuse(c: Config, s: System, i: In, b: nat, w: nat, d: nat)
    requires Plain(c) && Core(c, s, b, w, d) && Allowed(s, i)
    requires s.ft.state == Brq3 && !(i.ebBft && MxSignals(s.mx.state, i, false).bg)
    ensures CoreNext(c, s, i, b, w, d)
  {
    hide GoNext, Outcome, FtNext, Final, Within, Fresh;
    GrantOutcome(c, s, i);
    CountersRest(c, s.ft, Outcome(c, s, i).0, Outcome(c, s, i).1);
  }

  lemma CorePause(c: Config, s: System, i: In, b: nat, w: nat, d: nat)
    requires Plain(c) && Core(c, s, b, w, d) && Allowed(s, i)
    requires s.ft.state == Brq9
    ensures CoreNext(c, s, i, b, w, d)
  {
    hide GoNext, Sleeping, Moving, Ending, Aborting, Prepared, Aimed;
  }

  lemma CoreAddress(c: Config, s: System, i: In, b: nat, w: nat, d: nat)
    requires Plain(c) && Core(c, s, b, w, d) && Allowed(s, i)
    requires s.ft.state == Adr1 && !i.ebErr
    ensures CoreNext(c, s, i, b, w, d)
  {
    hide GoNext, Outcome, FtNext, Final, Inc, Retiring;
    AddressOutcome(c, s, i);
    CountersRest(c, s.ft, Outcome(c, s, i).0, Outcome(c, s, i).1);
  }

  lemma CoreRetry(c: Config, s: System, i: In, b: nat, w: nat, d: nat)
    requires Plain(c) && Core(c, s, b, w, d) && Allowed(s, i)
    requires s.ft.state == Adr1 && i.ebErr
    ensures CoreNext(c, s, i, b, w, d)
  {
    hide GoNext, Outcome, FtNext, Final, Inc, Fresh, Within;
    AddressOutcome(c, s, i);
    CountersRest(c, s.ft, Outcome(c, s, i).0, Outcome(c, s, i).1);
  }

  lemma CoreAwaitWord(c: Config, s: System, i: In, b: nat, w: nat, d: nat)
    requires Plain(c) && Core(c, s, b, w, d) && Allowed(s, i)
    requires s.ft.state == Adr2 && s.mx.state != MxRd1
    ensures CoreNext(c, s, i, b, w, d)
  {
    hide GoNext, Sleeping, Requesting, Ending, Aborting, Inc;
  }

  lemma CoreFirstWord(c: Config, s: System, i: In, b: nat, w: nat, d: nat)
    requires Plain(c) && Core(c, s, b, w, d) && Allowed(s, i)
    requires s.ft.state == Adr2 && s.mx.state == MxRd1 && !s.ft.daendm1
    ensures CoreNext(c, s, i, b, w, d)
  {
    hide GoNext, Outcome, FtNext, Retiring, Final;
    WordOutcome(c, s, i);
    CountersStep(c, s.ft, Outcome(c, s, i).0, Outcome(c, s, i).1);
  }

  lemma CoreSingleWord(c: Config, s: System, i: In, b: nat, w: nat, d: nat)
    requires Plain(c) && Core(c, s, b, w, d) && Allowed(s, i)
    requires s.ft.state == Adr2 && s.mx.state == MxRd1 && s.ft.daendm1
    ensures CoreNext(c, s, i, b, w, d)
  {
    hide GoNext, Outcome, FtNext, Retiring, Final, Length;
    WordOutcome(c, s, i);
    CountersStep(c, s.ft, Outcome(c, s, i).0, Outcome(c, s, i).1);
  }

  lemma CoreWords(c: Config, s: System, i: In, b: nat, w: nat, d: nat)
    requires Plain(c) && Core(c, s, b, w, d) && Allowed(s, i)
    requires s.ft.state == Dat1
    ensures CoreNext(c, s, i, b, w, d)
  {
    hide GoNext, Outcome, FtNext, Final, Retiring, Prepared;
    WordsOutcome(c, s, i);
    CountersStep(c, s.ft, Outcome(c, s, i).0, Outcome(c, s, i).1);
  }

  lemma CoreOnlyWord(c: Config, s: System, i: In, b: nat, w: nat, d: nat)
    requires Plain(c) && Core(c, s, b, w, d) && Allowed(s, i)
    requires s.ft.state == Dat01
    ensures CoreNext(c, s, i, b, w, d)
  {
    hide GoNext, Outcome, MxNext, FtNext, Within, Retiring, Length;
    OnlyWordOutcome(c, s, i);
    var (next, o) := Outcome(c, s, i);
    CountersStep(c, s.ft, next, o);
    MxRests(s.mx, i, s.ft.state, s.ft.mif, o);
  }

  lemma CoreLastWord(c: Config, s: System, i: In, b: nat, w: nat, d: nat)
    requires Plain(c) && Core(c, s, b, w, d) && Allowed(s, i)
    requires s.ft.state == Dat2
    ensures CoreNext(c, s, i, b, w, d)
  {
    hide GoNext, Sleeping, Requesting, Ending, Aborting;
  }

  lemma CoreTurn(c: Config, s: System, i: In, b: nat, w: nat, d: nat)
    requires Plain(c) && Core(c, s, b, w, d) && Allowed(s, i)
    requires s.ft.state == End1
    ensures CoreNext(c, s, i, b, w, d)
  {
    hide GoNext, Outcome, MxNext, Within, Retiring;
    TurnOutcome(c, s, i);
    MxRests(s.mx, i, s.ft.state, s.ft.mif, Outcome(c, s, i).1);
  }

  lemma CoreFinish(c: Config, s: System, i: In, b: nat, w: nat, d: nat)
    requires Plain(c) && Core(c, s, b, w, d) && Allowed(s, i)
    requires s.ft.state == End2
    ensures CoreNext(c, s, i, b, w, d)
  {
    hide GoNext, Outcome, MxNext, FtNext, Within;
    FinishOutcome(c, s, i);
    var (next, o) := Outcome(c, s, i);
    CountersRest(c, s.ft, next, o);
    MxRests(s.mx, i, s.ft.state, s.ft.mif, o);
  }

  lemma CoreSleep(c: Config, s: System, i: In, b: nat, w: nat, d: nat)
    requires Plain(c) && Core(c, s, b, w, d) && Allowed(s, i)
    requires s.ft.state == Bc6
    ensures CoreNext(c, s, i, b, w, d)
  {
    hide GoNext, Sleeping, Requesting, Moving, Aborting, Retiring, Final, Length, Fresh, Prepared, Aimed, Within, Inc;
  }

  lemma CoreAskBroadcast(c: Config, s: System, i: In, b: nat, w: nat, d: nat)
    requires Plain(c) && Core(c, s, b, w, d) && Allowed(s, i)
    requires s.ft.state == Bc1
    ensures CoreNext(c, s, i, b, w, d)
  {
    hide GoNext, Sleeping, Requesting, Moving, Aborting, Retiring, Final, Length, Fresh, Prepared, Aimed, Within, Inc;
  }

  lemma CoreBroadcast(c: Config, s: System, i: In, b: nat, w: nat, d: nat)
    requires Plain(c) && Core(c, s, b, w, d) && Allowed(s, i)
    requires s.ft.state == Bc2
    ensures CoreNext(c, s, i, b, w, d)
  {
    hide GoNext, Outcome, MxNext, FtNext, Within;
    BroadcastOutcome(c, s, i);
    var (next, o) := Outcome(c, s, i);
    CountersRest(c, s.ft, next, o);
    MxRests(s.mx, i, s.ft.state, s.ft.mif, o);
  }

  lemma CoreAgain(c: Config, s: System, i: In, b: nat, w: nat, d: nat)
    requires Plain(c) && Core(c, s, b, w, d) && Allowed(s, i)
    requires s.ft.state == Bc3
    ensures CoreNext(c, s, i, b, w, d)
  {
    hide GoNext, Sleeping, Requesting, Moving, Aborting, Aimed, Within;
  }

  lemma CoreClose(c: Config, s: System, i: In, b: nat, w: nat, d: nat)
    requires Plain(c) && Core(c, s, b, w, d) && Allowed(s, i)
    requires s.ft.state == Bc4
    ensures CoreNext(c, s, i, b, w, d)
  {
    hide GoNext, Outcome, MxNext, Within, Inc;
    CloseOutcome(c, s, i);
    MxRests(s.mx, i, s.ft.state, s.ft.mif, Outcome(c, s, i).1);
  }

  lemma CoreRest(c: Config, s: System, i: In, b: nat, w: nat, d: nat)
    requires Plain(c) && Core(c, s, b, w, d) && Allowed(s, i)
    requires s.ft.state == Bc5
    ensures CoreNext(c, s, i, b, w, d)
  {
    hide GoNext, Sleeping, Requesting, Moving, Aborting, Retiring;
  }

  /** Every cycle keeps the machines in lockstep and the counters right. */
  lemma CoreStep(c: Config, s: System, i: In, b: nat, w: nat, d: nat)
    requires Plain(c) && Core(c, s, b, w, d) && Allowed(s, i)
    requires s.ft.state == Iddle ==> d == 0
    ensures CoreNext(c, s, i, b, w, d)
  {
    hide Cycle, CoreNext, Allowed, Final, Fresh, Prepared, Aimed, Length;
    match s.ft.state
    case Iddle => CoreIdle(c, s, i, b, w, d);
    case Wait2 => CoreStart(c, s, i, b, w, d);
    case Wait0 => CoreAccept(c, s, i, b, w, d);
    case Brq1 => CorePrepare(c, s, i, b, w, d);
    case Brq2 => CoreRequest(c, s, i, b, w, d);
    case Brq3 =>
      if i.ebBft && MxSignals(s.mx.state, i, false).bg {
        CoreGrant(c, s, i, b, w, d);
      } else {
        CoreRefuse(c, s, i, b, w, d);
      }
    case Brq9 => CorePause(c, s, i, b, w, d);
    case Adr1 => if i.ebErr { CoreRetry(c, s, i, b, w, d); } else { CoreAddress(c, s, i, b, w, d); }
    case Adr2 =>
      if s.mx.state != MxRd1 {
        CoreAwaitWord(c, s, i, b, w, d);
      } else if s.ft.daendm1 {
        CoreSingleWord(c, s, i, b, w, d);
      } else {
        CoreFirstWord(c, s, i, b, w, d);
      }
    case Dat1 => CoreWords(c, s, i, b, w, d);
    case Dat01 => CoreOnlyWord(c, s, i, b, w, d);
    case Dat2 => CoreLastWord(c, s, i, b, w, d);
    case End1 => CoreTurn(c, s, i, b, w, d);
    case End2 => CoreFinish(c, s, i, b, w, d);
    case Bc6 => CoreSleep(c, s, i, b, w, d);
    case Bc1 => CoreAskBroadcast(c, s, i, b, w, d);
    case Bc2 => CoreBroadcast(c, s, i, b, w, d);
    case Bc3 => CoreAgain(c, s, i, b, w, d);
    case Bc4 => CoreClose(c, s, i, b, w, d);
    case Bc5 => CoreRest(c, s, i, b, w, d);
    case _ =>
  }

  lemma ProgressStart(c: Config, s: System, i: In, b: nat, w: nat, d: nat)
    requires Plain(c) && Core(c, s, b, w, d) && Allowed(s, i)
    requires s.ft.state == Iddle || s.ft.state == Wait0 || s.ft.state == Wait2
    requires d == 0
    ensures Progresses(c, s, i)
  {
    hide GoNext, Requesting, Moving, Ending, Aborting;
  }

  lemma ProgressRequest(c: Config, s: System, i: In, b: nat, w: nat, d: nat)
    requires Plain(c) && Core(c, s, b, w, d) && Allowed(s, i)
    requires s.ft.state == Brq1 || s.ft.state == Brq2
    ensures Progresses(c, s, i)
  {
    hide GoNext, Sleeping, Moving, Ending, Aborting;
  }

  lemma ProgressGrant(c: Config, s: System, i: In, b: nat, w: nat, d: nat)
    requires Plain(c) && Core(c, s, b, w, d) && Allowed(s, i)
    requires s.ft.state == Brq3 || s.ft.state == Brq9
    ensures Progresses(c, s, i)
  {
    hide GoNext, Sleeping, Moving, Ending, Aborting;
  }

  lemma ProgressAddress(c: Config, s: System, i: In, b: nat, w: nat, d: nat)
    requires Plain(c) && Core(c, s, b, w, d) && Allowed(s, i)
    requires s.ft.state == Adr1
    ensures Progresses(c, s, i)
  {
    hide GoNext, Sleeping, Requesting, Ending, Aborting;
  }

  lemma ProgressFirstWord(c: Config, s: System, i: In, b: nat, w: nat, d: nat)
    requires Plain(c) && Core(c, s, b, w, d) && Allowed(s, i)
    requires s.ft.state == Adr2
    ensures Progresses(c, s, i)
  {
    hide GoNext, Sleeping, Requesting, Ending, Aborting;
  }

  lemma ProgressWords(c: Config, s: System, i: In, b: nat, w: nat, d: nat)
    requires Plain(c) && Core(c, s, b, w, d) && Allowed(s, i)
    requires s.ft.state == Dat1 || s.ft.state == Dat01
    ensures Progresses(c, s, i)
  {
    hide GoNext, Sleeping, Requesting, Ending, Aborting;
  }

  lemma ProgressLastWord(c: Config, s: System, i: In, b: nat, w: nat, d: nat)
    requires Plain(c) && Core(c, s, b, w, d) && Allowed(s, i)
    requires s.ft.state == Dat2 || s.ft.state == End1
    ensures Progresses(c, s, i)
  {
    hide GoNext, Sleeping, Requesting, Aborting;
  }

  lemma ProgressFinish(c: Config, s: System, i: In, b: nat, w: nat, d: nat)
    requires Plain(c) && Core(c, s, b, w, d) && Allowed(s, i)
    requires s.ft.state == End2 || s.ft.state == Bc1
    ensures Progresses(c, s, i)
  {
    hide GoNext, Sleeping, Requesting, Moving, Aborting;
  }

  lemma ProgressBroadcast(c: Config, s: System, i: In, b: nat, w: nat, d: nat)
    requires Plain(c) && Core(c, s, b, w, d) && Allowed(s, i)
    requires s.ft.state == Bc2
    ensures Progresses(c, s, i)
  {
    hide GoNext, Sleeping, Requesting, Moving, Aborting;
  }

  lemma ProgressAgain(c: Config, s: System, i: In, b: nat, w: nat, d: nat)
    requires Plain(c) && Core(c, s, b, w, d) && Allowed(s, i)
    requires s.ft.state == Bc3
    ensures Progresses(c, s, i)
  {
    hide GoNext, Sleeping, Requesting, Moving, Aborting;
  }

  lemma ProgressClose(c: Config, s: System, i: In, b: nat, w: nat, d: nat)
    requires Plain(c) && Core(c, s, b, w, d) && Allowed(s, i)
    requires s.ft.state == Bc4
    ensures Progresses(c, s, i)
  {
    hide GoNext, Sleeping, Requesting, Moving, Aborting;
  }

  lemma ProgressRest(c: Config, s: System, i: In, b: nat, w: nat, d: nat)
    requires Plain(c) && Core(c, s, b, w, d) && Allowed(s, i)
    requires s.ft.state == Bc5
    ensures Progresses(c, s, i)
  {
    hide GoNext, Sleeping, Requesting, Moving, Aborting;
  }

  /** Until it is back asleep, every cycle that is not a stall or a refusal brings the
      engine closer to the end of the transfer. */
  lemma ProgressStep(c: Config, s: System, i: In, b: nat, w: nat, d: nat)
    requires Plain(c) && Core(c, s, b, w, d) && Allowed(s, i)
    requires s.ft.state == Iddle ==> d == 0
    requires s.ft.state != Bc6
    ensures Progresses(c, s, i)
  {
    hide Cycle, Progresses, Allowed, Final, Fresh, Prepared, Aimed, Length;
    match s.ft.state
    case Iddle | Wait0 | Wait2 => ProgressStart(c, s, i, b, w, d);
    case Brq1 | Brq2 => ProgressRequest(c, s, i, b, w, d);
    case Brq3 | Brq9 => ProgressGrant(c, s, i, b, w, d);
    case Adr1 => ProgressAddress(c, s, i, b, w, d);
    case Adr2 => ProgressFirstWord(c, s, i, b, w, d);
    case Dat1 | Dat01 => ProgressWords(c, s, i, b, w, d);
    case Dat2 | End1 => ProgressLastWord(c, s, i, b, w, d);
    case End2 | Bc1 => ProgressFinish(c, s, i, b, w, d);
    case Bc2 => ProgressBroadcast(c, s, i, b, w, d);
    case Bc3 => ProgressAgain(c, s, i, b, w, d);
    case Bc4 => ProgressClose(c, s, i, b, w, d);
    case Bc5 => ProgressRest(c, s, i, b, w, d);
    case _ =>
  }
}
