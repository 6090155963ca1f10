/** What a transfer amounts to: the words, the bursts, the addresses, the broadcast, the
    status and the GO bit. */
module FtDmaTransfer {
  import opened FtDma
  import opened FtDmaRuns

  // ---------------------------------------------------------------------------
  // Which state gives which command, for any inputs
  // ---------------------------------------------------------------------------

  predicate Commands(s: FtState, daendall: bool, plain: bool, rdy: bool, next: FtState, o: Out) {
    && (Addresses(o) ==> s == Brq3 || s == Adr1 || s == Adr2)
    && (next == Adr1 || next == Adr2 ==> Addresses(o))
    && (IsBeat(next) ==> s == Dat1 || (s == Adr2 && Addresses(o) && rdy))
    && (MxRead in o ==> s == Adr1 || s == Adr2)
    && (next == Adr2 ==> s == Adr2 || (s == Adr1 && MxRead in o))
    && (s == Adr1 && MxRead in o ==> next == Adr2)
    && (Open(s) && !EndsBurst(s) && plain ==> Open(next) || next == Abrt1)
    && (DaEn in o <==> MaEn in o) && (DaClr in o <==> s == Wait2) && (MaLd in o <==> s == Wait2)
    && (next == End2 && plain ==> s == Dat01 || (s == End1 && daendall) || s == End2)
    && (DaEn in o ==> s == Adr2 || s == Dat1 || s == Dat01)
    && (Holds(next) ==> Holds(s) || s == Wait2 || s == Wait9)
    && (s == Adr1 || s == Adr2 ==> Addresses(o)) && (IsBeat(s) ==> Strobe !in o && (Eof in o <==> EndsBurst(s)))
    && (Casts(o) <==> s == Bc4 || (s == Bc2 && next == Bc4)) && (next == Bc4 ==> s == Bc2)
    && (next == Brq3 ==> s == Brq2) && (next == Bc2 ==> s == Bc1)
    && (Irq in o <==> s == End2) && (IrqEnd in o <==> s == Bc4)
    && (plain && s != Abrt2 ==> (InCast(next) <==> s == End2 || (InCast(s) && s != Bc4)))
  }

  predicate CommandsOf(r: FtRegs, mx: MxOut, step: (FtState, Out)) {
    Commands(r.state, r.daendall, !r.fifo && !r.mif, mx.rdy, step.0, step.1)
  }

  lemma SleepingCommands(c: Config, r: FtRegs, go: GoRegs, i: In, mx: MxOut)
    requires r.state == Iddle
    ensures CommandsOf(r, mx, Sleeping(c, r, go, i, mx))
  {
  }

  lemma TakingCommands(c: Config, r: FtRegs, go: GoRegs, i: In, mx: MxOut)
    requires r.state in {Wait0, Wait1}
    ensures CommandsOf(r, mx, Sleeping(c, r, go, i, mx))
  {
  }

  lemma WaitingCommands(c: Config, r: FtRegs, go: GoRegs, i: In, mx: MxOut)
    requires r.state in {Wait2, Wait3}
    ensures CommandsOf(r, mx, Sleeping(c, r, go, i, mx))
  {
  }

  lemma ReadyCommands(c: Config, r: FtRegs, go: GoRegs, i: In, mx: MxOut)
    requires r.state in {Wait4, Wait9}
    ensures CommandsOf(r, mx, Sleeping(c, r, go, i, mx))
  {
  }

  lemma RequestingCommands(r: FtRegs, i: In, mx: MxOut)
    requires r.state in {Brq1, Brq2}
    ensures CommandsOf(r, mx, Requesting(r, i, mx))
  {
  }

  lemma GrantedCommands(r: FtRegs, i: In, mx: MxOut)
    requires r.state in {Brq3, Brq9}
    ensures CommandsOf(r, mx, Requesting(r, i, mx))
  {
  }

  lemma AddressingCommands(c: Config, r: FtRegs, i: In, mx: MxOut)
    requires r.state == Adr1
    ensures CommandsOf(r, mx, Moving(c, r, i, mx))
  {
  }

  lemma OpeningCommands(c: Config, r: FtRegs, i: In, mx: MxOut)
    requires r.state == Adr2
    ensures CommandsOf(r, mx, Moving(c, r, i, mx))
  {
  }

  lemma SingleCommands(c: Config, r: FtRegs, i: In, mx: MxOut)
    requires r.state == Dat01
    ensures CommandsOf(r, mx, Moving(c, r, i, mx))
  {
  }

  lemma LastCommands(c: Config, r: FtRegs, i: In, mx: MxOut)
    requires r.state == Dat2
    ensures CommandsOf(r, mx, Moving(c, r, i, mx))
  {
  }

  lemma OverlapCommands(c: Config, r: FtRegs, i: In, mx: MxOut)
    requires r.state == Dat11
    ensures CommandsOf(r, mx, Moving(c, r, i, mx))
  {
  }

  lemma WordCommands(c: Config, r: FtRegs, i: In, mx: MxOut)
    requires r.state == Dat1
    ensures CommandsOf(r, mx, Moving(c, r, i, mx))
  {
  }

  lemma EndingCommands(c: Config, r: FtRegs, i: In, mx: MxOut)
    requires r.state in {End1, End2}
    ensures CommandsOf(r, mx, Ending(c, r, i, mx))
  {
  }

  lemma BroadcastCommands(c: Config, r: FtRegs, i: In, mx: MxOut)
    requires r.state == Bc1 || r.state == Bc2
    ensures CommandsOf(r, mx, Ending(c, r, i, mx))
  {
  }

  lemma ClosingCommands(c: Config, r: FtRegs, i: In, mx: MxOut)
    requires r.state == Bc3 || r.state == Bc4
    ensures CommandsOf(r, mx, Ending(c, r, i, mx))
  {
  }

  lemma ReturningCommands(c: Config, r: FtRegs, i: In, mx: MxOut)
    requires r.state == Bc5 || r.state == Bc6
    ensures CommandsOf(r, mx, Ending(c, r, i, mx))
  {
  }

  lemma AbortingCommands(c: Config, r: FtRegs, mx: MxOut)
    requires r.state in {Abrt1, Abrt2, Abrt3}
    ensures CommandsOf(r, mx, Aborting(c, r, mx))
  {
  }

  lemma ResettingCommands(c: Config, r: FtRegs, mx: MxOut)
    requires r.state == Rst1
    ensures CommandsOf(r, mx, Aborting(c, r, mx))
  {
  }

  lemma ResetCommands(c: Config, r: FtRegs, mx: MxOut)
    requires r.state == Rst2 || r.state == Rst3
    ensures CommandsOf(r, mx, Aborting(c, r, mx))
  {
  }

  lemma ControlCommands(c: Config, r: FtRegs, go: GoRegs, i: In, mx: MxOut)
    ensures CommandsOf(r, mx, Control(c, r, go, i, mx))
  {
    hide CommandsOf, Sleeping, Requesting, Moving, Ending, Aborting;
    match r.state
    case Iddle => SleepingCommands(c, r, go, i, mx);
    case Wait0 | Wait1 => TakingCommands(c, r, go, i, mx);
    case Wait2 | Wait3 => WaitingCommands(c, r, go, i, mx);
    case Wait4 | Wait9 => ReadyCommands(c, r, go, i, mx);
    case Brq1 | Brq2 => RequestingCommands(r, i, mx);
    case Brq3 | Brq9 => GrantedCommands(r, i, mx);
    case Adr1 => AddressingCommands(c, r, i, mx);
    case Adr2 => OpeningCommands(c, r, i, mx);
    case Dat1 => WordCommands(c, r, i, mx);
    case Dat01 => SingleCommands(c, r, i, mx);
    case Dat2 => LastCommands(c, r, i, mx);
    case Dat11 => OverlapCommands(c, r, i, mx);
    case End1 | End2 => EndingCommands(c, r, i, mx);
    case Bc1 | Bc2 => BroadcastCommands(c, r, i, mx);
    case Bc3 | Bc4 => ClosingCommands(c, r, i, mx);
    case Bc5 | Bc6 => ReturningCommands(c, r, i, mx);
    case Abrt1 | Abrt2 | Abrt3 => AbortingCommands(c, r, mx);
    case Rst1 => ResettingCommands(c, r, mx);
    case Rst2 | Rst3 => ResetCommands(c, r, mx);
  }

  /** States in which the source address follows the words moved. */
  predicate Holds(s: FtState) {
    s in {Brq1, Brq2, Brq3, Brq9, Adr1, Adr2, Dat1, Dat2, End1}
  }

  /** States from the end of a descriptor to its broadcast. */
  predicate InCast(s: FtState) { s == Bc1 || s == Bc2 || s == Bc3 || s == Bc4 }

  predicate Open(s: FtState) { s == Adr2 || IsBeat(s) }

  // ---------------------------------------------------------------------------
  // What the lockstep invariant says about the buses
  // ---------------------------------------------------------------------------

  /** The facts about one state that the record of a transfer needs. */
  predicate Facts(c: Config, s: System, b: nat, w: nat, d: nat) {
    var st, m := s.ft.state, s.mx.state;
    && (IsBeat(st) ==> !s.ft.ebadrs && b + 1 == w)
    && (!IsBeat(st) ==> b == w)
    && (st == Dat1 ==> m == MxRd1 && s.ft.dacnt < c.desc0.count)
    && st !in {Wait9, Abrt1, Dat11}
    && (st == Adr2 ==> m == MxAdr2 || m == MxRd1)
    && (st == Adr1 ==> m == MxAdr1)
    && (st == Brq3 || st == Adr1 || st == Adr2 ==>
          s.ft.ebadrs && s.ft.daburst == c.desc0.dest + 8 * d && b == d == s.ft.dacnt < c.desc0.count)
    && (EndsBurst(st) ==> b + 1 == d + Length(c, d) && Length(c, d) > 0 && (Length(c, d) == 1 <==> st == Dat01))
    && (st == End1 && s.ft.daendall ==> s.ft.dacnt == c.desc0.count)
    && (st == Dat01 ==> s.ft.dacnt == c.desc0.count)
    && !s.ft.fifo && !s.ft.mif
  }

  lemma CoreFacts(c: Config, s: System, b: nat, w: nat, d: nat)
    requires Plain(c) && Core(c, s, b, w, d)
    ensures Facts(c, s, b, w, d)
  {
    hide Fresh, Final, Retiring;
  }

  // ---------------------------------------------------------------------------
  // The record of a transfer
  // ---------------------------------------------------------------------------

  /** The counters of the invariant are those of the record. */
  predicate LogCore(c: Config, s: System, g: Log) {
    Core(c, s, |g.beats|, |g.samples|, Total(g.bursts))
  }

  predicate LogFacts(c: Config, s: System, g: Log) {
    Facts(c, s, |g.beats|, |g.samples|, Total(g.bursts)) && Phased(s, g)
  }

  /** States between an address phase and the end of its frame. */
  predicate InFrame(s: FtState) { s == Adr1 || s == Adr2 || IsBeat(s) }

  /** What the lines have shown so far agrees with the state. */
  predicate Phased(s: System, g: Log) {
    var st := s.ft.state;
    && (InFrame(st) ==> g.open && s.ft.ebft)
    && (g.open && s.ft.ebft ==> InFrame(st) || st == Abrt1 || st == Dat11)
    && (st == Bc4 ==> g.casting) && (st == Bc2 ==> !g.casting)
    && g.clocks + (if st == Bc4 then 1 else 0) == 2 * g.broadcasts
  }

  /** A data phase on the lines is a data state of the machine, and ends its frame in the
      last of a burst. */
  lemma PhaseIsState(c: Config, s: System, g: Log, i: In)
    requires Phased(s, g) && s.ft.state != Abrt1 && s.ft.state != Dat11
    ensures var o := Outcome(c, s, i).1; DataPhase(s, g, o) == IsBeat(s.ft.state)
    ensures IsBeat(s.ft.state) ==> (Eof in Outcome(c, s, i).1 <==> EndsBurst(s.ft.state))
  {
    hide Outcome, Holds, Open;
    NextState(c, s, i);
    ControlCommands(c, s.ft, s.go, i, MxSignals(s.mx.state, i, Aborts(s.ft.state)));
  }

  /** The broadcast register follows the states. */
  predicate CastHeld(s: System) { s.ft.ebbc <==> InCast(s.ft.state) }

  lemma CastStep(c: Config, s: System, i: In)
    requires CastHeld(s) && !s.ft.fifo && !s.ft.mif && s.ft.state != Abrt2
    ensures CastHeld(Cycle(c, s, i))
  {
    hide Control, MxNext, GoNext, Within, Inc, Holds, Open;
    ControlCommands(c, s.ft, s.go, i, MxSignals(s.mx.state, i, Aborts(s.ft.state)));
  }

  lemma PhaseRecorded(c: Config, s: System, g: Log, i: In)
    ensures
      var o, h := Outcome(c, s, i).1, Observe(c, s, g, i);
      && h.open == (Addresses(o) || (DataPhase(s, g, o) && Eof !in o)) && h.casting == Casts(o)
      && h.clocks == (if Casts(o) then g.clocks + 1 else g.clocks)
      && h.broadcasts == (if Casts(o) && !g.casting then g.broadcasts + 1 else g.broadcasts)
  {
    hide Outcome, Total;
  }

  lemma PhasedStep(c: Config, s: System, g: Log, i: In)
    requires Phased(s, g) && s.ft.state != Abrt1 && s.ft.state != Dat11
    requires
      var t := Cycle(c, s, i);
      && (InFrame(t.ft.state) ==> t.ft.ebft)
      && (t.ft.ebft ==> InFrame(t.ft.state) || t.ft.state in {Brq3, Dat11, Bc2, Bc4, Abrt1})
    ensures Phased(Cycle(c, s, i), Observe(c, s, g, i))
    ensures Observe(c, s, g, i).broadcasts
         == g.broadcasts + (if s.ft.state == Bc2 && Outcome(c, s, i).0 == Bc4 then 1 else 0)
  {
    hide Outcome, Cycle, Observe, Holds, Open;
    NextState(c, s, i);
    PhaseIsState(c, s, g, i);
    PhaseRecorded(c, s, g, i);
    ControlCommands(c, s.ft, s.go, i, MxSignals(s.mx.state, i, Aborts(s.ft.state)));
  }

  lemma LogCounts(c: Config, s: System, g: Log, i: In)
    requires LogFacts(c, s, g)
    ensures
      var h := Observe(c, s, g, i);
      && |h.beats| == BeatsAfter(s, |g.beats|) && |h.samples| == SamplesAfter(s, |g.samples|)
      && Total(h.bursts) == DoneAfter(s, |g.beats|, Total(g.bursts))
  {
    hide Outcome, Length;
    PhaseIsState(c, s, g, i);
    var h := Observe(c, s, g, i);
    if EndsBurst(s.ft.state) {
      assert h.bursts[..|h.bursts| - 1] == g.bursts;
    }
  }

  /** Every word on the first bus is the word of the same number from the second, and in
      a data cycle the next one is in the pipeline register. */
  predicate Content(s: System, g: Log) {
    && |g.beats| <= |g.samples|
    && (forall k :: 0 <= k < |g.beats| ==> g.beats[k] == Data(g.samples[k]))
    && (IsBeat(s.ft.state) ==> |g.beats| < |g.samples| && s.mx.dout == g.samples[|g.beats|])
  }

  /** The parts of a cycle that concern the words. */
  lemma Pipeline(c: Config, s: System, g: Log, i: In)
    requires LogFacts(c, s, g)
    ensures
      var t, h := Cycle(c, s, i), Observe(c, s, g, i);
      && t.mx.dout == i.eb2Dat
      && h.beats == (if IsBeat(s.ft.state) then g.beats + [Data(s.mx.dout)] else g.beats)
      && h.samples == (if s.mx.state == MxRd1 then g.samples + [i.eb2Dat] else g.samples)
      && (IsBeat(t.ft.state) ==> s.mx.state == MxRd1)
  {
    PhaseIsState(c, s, g, i);
    ControlCommands(c, s.ft, s.go, i, MxSignals(s.mx.state, i, Aborts(s.ft.state)));
    hide Control, MxControl, GoNext, Length, Total;
  }

  lemma BeatMeansAhead(c: Config, s: System, g: Log)
    requires LogFacts(c, s, g)
    ensures |g.samples| == if IsBeat(s.ft.state) then |g.beats| + 1 else |g.beats|
  {
    hide Length, Total;
  }

  lemma ContentStep(c: Config, s: System, g: Log, i: In)
    requires LogFacts(c, s, g) && LogFacts(c, Cycle(c, s, i), Observe(c, s, g, i)) && Content(s, g)
    ensures Content(Cycle(c, s, i), Observe(c, s, g, i))
  {
    hide Cycle, Observe, Length, Total, LogFacts;
    Pipeline(c, s, g, i);
    BeatMeansAhead(c, Cycle(c, s, i), Observe(c, s, g, i));
  }

  // ---------------------------------------------------------------------------
  // The bursts
  // ---------------------------------------------------------------------------

  /** The bursts that should follow after `d` words: full payloads, then what remains, each
      where the one before ended. */
  function Split(c: Config, d: nat): seq<Burst>
    decreases c.desc0.count - d
  {
    if Length(c, d) == 0 then []
    else [Burst(c.desc0.dest + 8 * d, Length(c, d))] + Split(c, d + Length(c, d))
  }

  predicate Tiled(c: Config, g: Log) {
    g.bursts + Split(c, Total(g.bursts)) == Split(c, 0)
  }

  predicate NeedsStrobe(s: FtState) { s == Adr1 || s == Adr2 || IsBeat(s) }

  predicate Strobed(c: Config, s: System, g: Log) {
    NeedsStrobe(s.ft.state) ==> g.strobed == Address(c.desc0.dest + 8 * Total(g.bursts))
  }

  lemma StrobedStep(c: Config, s: System, g: Log, i: In)
    requires LogFacts(c, s, g) && Strobed(c, s, g)
    ensures Strobed(c, Cycle(c, s, i), Observe(c, s, g, i))
  {
    hide Outcome, Cycle, Observe, Total, Length, Holds, Open;
    LogCounts(c, s, g, i);
    NextState(c, s, i);
    StrobeRecorded(c, s, g, i);
    ControlCommands(c, s.ft, s.go, i, MxSignals(s.mx.state, i, Aborts(s.ft.state)));
  }

  lemma NextState(c: Config, s: System, i: In)
    ensures Cycle(c, s, i).ft.state == Outcome(c, s, i).0
    ensures Outcome(c, s, i) == Control(c, s.ft, s.go, i, MxSignals(s.mx.state, i, Aborts(s.ft.state)))
  {
    hide Control, MxNext, GoNext, Within, Inc;
  }

  lemma StrobeRecorded(c: Config, s: System, g: Log, i: In)
    ensures Observe(c, s, g, i).strobed == if Addresses(Outcome(c, s, i).1) then Driven(s) else g.strobed
  {
    hide Outcome, Total;
  }

  lemma BurstRecorded(c: Config, s: System, g: Log, i: In)
    requires LogFacts(c, s, g) && Strobed(c, s, g)
    ensures
      var d := Total(g.bursts);
      Observe(c, s, g, i).bursts
        == if EndsBurst(s.ft.state) then g.bursts + [Burst(c.desc0.dest + 8 * d, Length(c, d))] else g.bursts
  {
    hide Observe, Total, Length, Outcome, DataPhase;
    PhaseIsState(c, s, g, i);
    BurstWritten(c, s, g, i);
  }

  lemma BurstWritten(c: Config, s: System, g: Log, i: In)
    requires EndsBurst(s.ft.state) ==> |g.beats| + 1 >= Total(g.bursts)
    requires DataPhase(s, g, Outcome(c, s, i).1) == IsBeat(s.ft.state)
    requires IsBeat(s.ft.state) ==> (Eof in Outcome(c, s, i).1 <==> EndsBurst(s.ft.state))
    ensures
      Observe(c, s, g, i).bursts
        == if EndsBurst(s.ft.state) then g.bursts + [Burst(AddressOf(g.strobed), |g.beats| + 1 - Total(g.bursts))]
           else g.bursts
  {
    hide Outcome, Total;
  }

  lemma TileOne(c: Config, bs: seq<Burst>)
    requires Length(c, Total(bs)) > 0
    ensures
      var d := Total(bs);
      var more := bs + [Burst(c.desc0.dest + 8 * d, Length(c, d))];
      more + Split(c, Total(more)) == bs + Split(c, d)
  {
    var d := Total(bs);
    var x := Burst(c.desc0.dest + 8 * d, Length(c, d));
    assert (bs + [x])[..|bs|] == bs;
    assert Split(c, d) == [x] + Split(c, d + Length(c, d));
  }

  lemma EndedSome(c: Config, s: System, g: Log)
    requires LogFacts(c, s, g) && EndsBurst(s.ft.state)
    ensures Length(c, Total(g.bursts)) > 0
  {
    hide Length, Total;
  }

  lemma TiledStep(c: Config, s: System, g: Log, i: In)
    requires LogFacts(c, s, g) && Strobed(c, s, g) && Tiled(c, g)
    ensures Tiled(c, Observe(c, s, g, i))
  {
    hide Observe, Total, Split, Length, LogFacts, Strobed, EndsBurst;
    BurstRecorded(c, s, g, i);
    if EndsBurst(s.ft.state) {
      EndedSome(c, s, g);
      TileOne(c, g.bursts);
    }
  }

  // ---------------------------------------------------------------------------
  // Source addresses
  // ---------------------------------------------------------------------------

  predicate SourceRight(c: Config, bursts: seq<Burst>, source: (nat, nat), k: nat)
    requires k <= |bursts|
  {
    source == (IssuedAddress(c.desc0.segment, c.desc0.source + Total(bursts[..k])), Total(bursts[..k]))
  }

  /** One source address has been issued for every burst begun. */
  predicate Sourced(c: Config, s: System, g: Log) {
    && |g.sources| == |g.bursts| + (if Open(s.ft.state) then 1 else 0)
    && SourcesRight(c, g.bursts, g.sources)
  }

  predicate MemoryRight(c: Config, s: System) {
    Holds(s.ft.state) && s.ft.dacnt < c.desc0.count ==>
      s.ft.macnt == c.desc0.source + s.ft.dacnt && s.ft.maseg == c.desc0.segment
  }

  /** The parts of a cycle that concern addresses. */
  lemma Counters(c: Config, s: System, i: In)
    requires s.ft.state == Wait2 ==> s.ft.run0
    ensures
      var t, o := Cycle(c, s, i), Outcome(c, s, i).1;
      && t.ft.state == Outcome(c, s, i).0
      && t.ft.dacnt == (if s.ft.state == Wait2 then 0 else if DaEn in o then Inc(s.ft.dacnt, COUNT) else s.ft.dacnt)
      && (if s.ft.state == Wait2 then t.ft.macnt == c.desc0.source && t.ft.maseg == c.desc0.segment
          else t.ft.macnt == (if DaEn in o then Inc(s.ft.macnt, OFFSET) else s.ft.macnt) && t.ft.maseg == s.ft.maseg)
      && CommandsOf(s.ft, MxSignals(s.mx.state, i, Aborts(s.ft.state)), Outcome(c, s, i))
  {
    ControlCommands(c, s.ft, s.go, i, MxSignals(s.mx.state, i, Aborts(s.ft.state)));
    hide Control, GoNext, MxNext, Inc;
  }

  lemma MemoryStep(c: Config, s: System, i: In, b: nat, w: nat, d: nat)
    requires Facts(c, s, b, w, d) && MemoryRight(c, s)
    requires c.desc0.source + c.desc0.count <= OFFSET && c.desc0.count < COUNT
    requires s.ft.state == Wait2 ==> s.ft.run0
    ensures MemoryRight(c, Cycle(c, s, i))
  {
    hide Outcome, Cycle, Length, IsBeat, EndsBurst, Open, Addresses;
    Counters(c, s, i);
  }

  /** A source address is issued when a burst is opened, and only then. */
  lemma SourceRecorded(c: Config, s: System, g: Log, i: In)
    requires LogFacts(c, s, g) && Cycle(c, s, i).ft.state != Abrt1
    ensures
      var t, h := Cycle(c, s, i), Observe(c, s, g, i);
      var opens := s.ft.state == Adr1 && MxRead in Outcome(c, s, i).1;
      && h.sources == (if opens then g.sources + [(IssuedAddress(s.ft.maseg, s.ft.macnt), |g.beats|)] else g.sources)
      && (Open(t.ft.state) <==> opens || (Open(s.ft.state) && !EndsBurst(s.ft.state)))
  {
    PhaseIsState(c, s, g, i);
    ControlCommands(c, s.ft, s.go, i, MxSignals(s.mx.state, i, Aborts(s.ft.state)));
    hide Control, GoNext, MxNext, Length, Total, IssuedAddress;
  }

  predicate SourcesRight(c: Config, bursts: seq<Burst>, sources: seq<(nat, nat)>) {
    && |sources| <= |bursts| + 1
    && forall k :: 0 <= k < |sources| && k <= |bursts| ==> SourceRight(c, bursts, sources[k], k)
  }

  lemma SourcesAfterBurst(c: Config, bursts: seq<Burst>, x: Burst, sources: seq<(nat, nat)>)
    requires SourcesRight(c, bursts, sources)
    ensures SourcesRight(c, bursts + [x], sources)
  {
    hide Total;
    forall k | 0 <= k < |sources| && k <= |bursts| + 1 ensures SourceRight(c, bursts + [x], sources[k], k) {
      assert (bursts + [x])[..k] == bursts[..k];
      assert SourceRight(c, bursts, sources[k], k);
    }
  }

  lemma SourcesAfterOpening(c: Config, bursts: seq<Burst>, sources: seq<(nat, nat)>)
    requires SourcesRight(c, bursts, sources) && |sources| == |bursts|
    ensures
      var source := (IssuedAddress(c.desc0.segment, c.desc0.source + Total(bursts)), Total(bursts));
      SourcesRight(c, bursts, sources + [source])
  {
    hide Total, IssuedAddress;
    assert bursts[..|bursts|] == bursts;
    forall k | 0 <= k < |sources| ensures SourceRight(c, bursts, sources[k], k) {
    }
  }

  lemma IssuedRight(c: Config, s: System, g: Log)
    requires LogFacts(c, s, g) && MemoryRight(c, s) && s.ft.state == Adr1
    ensures s.ft.maseg == c.desc0.segment && s.ft.macnt == c.desc0.source + Total(g.bursts)
    ensures |g.beats| == Total(g.bursts)
  {
    hide Total, Length;
  }

  lemma SourcedStep(c: Config, s: System, g: Log, i: In)
    requires LogFacts(c, s, g) && Sourced(c, s, g) && MemoryRight(c, s) && Strobed(c, s, g)
    requires Cycle(c, s, i).ft.state != Abrt1
    ensures Sourced(c, Cycle(c, s, i), Observe(c, s, g, i))
  {
    hide *;
    SourceRecorded(c, s, g, i);
    BurstRecorded(c, s, g, i);
    var t, h := Cycle(c, s, i), Observe(c, s, g, i);
    SourcedMeans(c, s, g);
    OpenStates(s.ft.state);
    if EndsBurst(s.ft.state) {
      SourcesAfterBurst(c, g.bursts, Burst(c.desc0.dest + 8 * Total(g.bursts), Length(c, Total(g.bursts))), g.sources);
    } else if s.ft.state == Adr1 && MxRead in Outcome(c, s, i).1 {
      IssuedRight(c, s, g);
      SourcesAfterOpening(c, g.bursts, g.sources);
    }
    SourcedMeans(c, t, h);
  }

  lemma OpenStates(s: FtState)
    ensures EndsBurst(s) ==> Open(s) && s != Adr1
    ensures !Open(Adr1)
  {
  }

  lemma SourcedMeans(c: Config, s: System, g: Log)
    ensures
      Sourced(c, s, g) <==>
        SourcesRight(c, g.bursts, g.sources) && |g.sources| == |g.bursts| + (if Open(s.ft.state) then 1 else 0)
  {
  }
}
