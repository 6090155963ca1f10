/** The properties of whole transfers. */
module FtDmaTheorems {
  import opened Modular
  import opened FtDma
  import opened FtDmaRuns
  import opened FtDmaTransfer
  import opened FtDmaClosing

  function LastOf(bs: seq<Burst>): nat {
    if bs == [] then 0 else bs[|bs| - 1].length
  }

  predicate Inv(c: Config, s: System, g: Log) {
    && LogCore(c, s, g) && Content(s, g)
    && Tiled(c, g) && Strobed(c, s, g)
    && MemoryRight(c, s) && Sourced(c, s, g)
    && Closing(c, s, LastOf(g.bursts), g.broadcasts)
    && (g.bursts != [] ==> LastOf(g.bursts) > 0)
    && Orderly(s.ft) && SourceHeld(s.mx) && Phased(s, g) && CastHeld(s)
  }

  const EMPTY := Log([], [], [], Data(0), [], 0, 0, false, false)

  lemma IdleInv(c: Config, s: System)
    requires Plain(c) && IsIdle(s)
    ensures Inv(c, s, EMPTY)
  {
  }

  /** The engine is asleep again after its transfer. */
  predicate Returned(s: System, g: Log) {
    s.ft.state == Iddle && g.broadcasts > 0
  }

  lemma StillEmpty(c: Config, s: System, g: Log)
    requires Inv(c, s, g) && !Returned(s, g) && s.ft.state == Iddle
    ensures Total(g.bursts) == 0 && g.broadcasts == 0
  {
    hide Core, Split, Sourced, Content;
  }

  lemma NextLogCore(c: Config, s: System, g: Log, i: In)
    requires Plain(c) && Inv(c, s, g) && Allowed(s, i) && !Returned(s, g)
    ensures LogFacts(c, s, g) && LogCore(c, Cycle(c, s, i), Observe(c, s, g, i))
  {
    hide Core, Allowed, Facts, Cycle, Observe, Plain, Closing, Content, Tiled, Sourced, MemoryRight, Strobed, Total,
         LastOf;
    if s.ft.state == Iddle { StillEmpty(c, s, g); }
    CoreFacts(c, s, |g.beats|, |g.samples|, Total(g.bursts));
    CoreStep(c, s, i, |g.beats|, |g.samples|, Total(g.bursts));
    LogCounts(c, s, g, i);
  }

  lemma NextPhased(c: Config, s: System, g: Log, i: In)
    requires Phased(s, g) && Orderly(s.ft) && s.ft.state != Abrt1 && s.ft.state != Dat11
    ensures Phased(Cycle(c, s, i), Observe(c, s, g, i))
    ensures Observe(c, s, g, i).broadcasts
         == g.broadcasts + (if s.ft.state == Bc2 && Outcome(c, s, i).0 == Bc4 then 1 else 0)
  {
    hide Cycle, Observe, Outcome, Phased;
    OrderlyStep(c, s, i);
    PhasedStep(c, s, g, i);
  }

  lemma CastGranted(c: Config, s: System, i: In)
    requires s.ft.state == Bc2
    ensures Outcome(c, s, i).0 == Bc4 <==> i.ebBft
  {
    hide Sleeping, Requesting, Moving, Aborting;
  }

  lemma NextClosing(c: Config, s: System, g: Log, i: In)
    requires Plain(c) && Inv(c, s, g) && Allowed(s, i) && !Returned(s, g)
    ensures
      var h := Observe(c, s, g, i);
      Closing(c, Cycle(c, s, i), LastOf(h.bursts), h.broadcasts) && (h.bursts != [] ==> LastOf(h.bursts) > 0)
  {
    hide Core, Allowed, Cycle, Outcome, Plain, Closing, Content, Tiled, Sourced, MemoryRight, Total, Length;
    if s.ft.state == Iddle { StillEmpty(c, s, g); }
    CoreFacts(c, s, |g.beats|, |g.samples|, Total(g.bursts));
    ClosingStep(c, s, i, |g.beats|, |g.samples|, Total(g.bursts), LastOf(g.bursts), g.broadcasts);
    BurstRecorded(c, s, g, i);
    NextPhased(c, s, g, i);
    if s.ft.state == Bc2 { CastGranted(c, s, i); }
  }

  lemma NoAbort(c: Config, s: System, b: nat, w: nat, d: nat)
    requires Core(c, s, b, w, d)
    ensures s.ft.state !in {Abrt1, Abrt2, Dat11} && (s.ft.state == Wait2 ==> s.ft.run0) && !s.ft.fifo && !s.ft.mif
  {
  }

  /** Every cycle of an error-free transfer keeps all that is known about it. */
  lemma InvStep(c: Config, s: System, g: Log, i: In)
    requires Plain(c) && Inv(c, s, g) && Allowed(s, i) && !Returned(s, g)
    ensures Inv(c, Cycle(c, s, i), Observe(c, s, g, i))
  {
    hide Core, Allowed, Facts, Cycle, Observe, Closing, Content, Tiled, Sourced, MemoryRight, Strobed, Total,
         LastOf, Returned, Orderly, SourceHeld;
    var b, w, d := |g.beats|, |g.samples|, Total(g.bursts);
    var t, h := Cycle(c, s, i), Observe(c, s, g, i);
    NextLogCore(c, s, g, i);
    NextClosing(c, s, g, i);
    NoAbort(c, s, b, w, d);
    NextPhased(c, s, g, i);
    CastStep(c, s, i);
    NoAbort(c, t, |h.beats|, |h.samples|, Total(h.bursts));
    CoreFacts(c, t, |h.beats|, |h.samples|, Total(h.bursts));
    ContentStep(c, s, g, i);
    StrobedStep(c, s, g, i);
    TiledStep(c, s, g, i);
    MemoryStep(c, s, i, b, w, d);
    SourcedStep(c, s, g, i);
    OrderlyStep(c, s, i);
    SourceHeldNext(c, s, i);
  }

  lemma SourceHeldNext(c: Config, s: System, i: In)
    requires SourceHeld(s.mx)
    ensures SourceHeld(Cycle(c, s, i).mx)
  {
    hide SourceHeld, FtNext, Control, MxNext;
    SourceHeldStep(s.mx, i, s.ft.state, s.ft.mif, Outcome(c, s, i).1);
  }

  // ---------------------------------------------------------------------------
  // Runs
  // ---------------------------------------------------------------------------

  /** The engine runs through the given cycles, or until it has returned. */
  function Run(c: Config, s: System, g: Log, cycles: seq<In>): (System, Log)
    decreases |cycles|
  {
    if cycles == [] || Returned(s, g) then (s, g)
    else Run(c, Cycle(c, s, cycles[0]), Observe(c, s, g, cycles[0]), cycles[1..])
  }

  predicate AllAllowed(c: Config, s: System, g: Log, cycles: seq<In>)
    decreases |cycles|
  {
    cycles == [] || Returned(s, g)
    || (Allowed(s, cycles[0]) && AllAllowed(c, Cycle(c, s, cycles[0]), Observe(c, s, g, cycles[0]), cycles[1..]))
  }

  /** Cycles in which the engine is made to wait, and those in which it is refused. */
  function StallCount(c: Config, s: System, g: Log, cycles: seq<In>): nat
    decreases |cycles|
  {
    if cycles == [] || Returned(s, g) then 0
    else (if Stalls(s, cycles[0]) then 1 else 0)
         + StallCount(c, Cycle(c, s, cycles[0]), Observe(c, s, g, cycles[0]), cycles[1..])
  }

  function RefusalCount(c: Config, s: System, g: Log, cycles: seq<In>): nat
    decreases |cycles|
  {
    if cycles == [] || Returned(s, g) then 0
    else (if !Stalls(s, cycles[0]) && Refused(s, cycles[0]) then 1 else 0)
         + RefusalCount(c, Cycle(c, s, cycles[0]), Observe(c, s, g, cycles[0]), cycles[1..])
  }

  /** What a finished transfer has done. */
  predicate Done(c: Config, s: System, g: Log) {
    && IsIdle(s) && !s.go.go0
    && |g.beats| == |g.samples| == c.desc0.count
    && (forall k :: 0 <= k < |g.beats| ==> g.beats[k] == Data(g.samples[k]))
    && g.bursts == Split(c, 0)
    && |g.sources| == |g.bursts| && SourcesRight(c, g.bursts, g.sources)
    && g.broadcasts == 1 && g.clocks == 2
    && s.ft.sts0 == StatusOf(c, LastOf(Split(c, 0)))
  }

  lemma {:induction false} RunKeeps(c: Config, s: System, g: Log, cycles: seq<In>)
    requires Plain(c) && Inv(c, s, g) && AllAllowed(c, s, g, cycles)
    ensures Inv(c, Run(c, s, g, cycles).0, Run(c, s, g, cycles).1)
    decreases |cycles|
  {
    hide Inv, Allowed, Cycle, Observe, Plain, Returned;
    if cycles != [] && !Returned(s, g) {
      InvStep(c, s, g, cycles[0]);
      RunKeeps(c, Cycle(c, s, cycles[0]), Observe(c, s, g, cycles[0]), cycles[1..]);
    }
  }

  lemma ProgressOf(c: Config, s: System, g: Log, i: In)
    requires Plain(c) && Inv(c, s, g) && Allowed(s, i) && !Returned(s, g)
    ensures
      || Returned(Cycle(c, s, i), Observe(c, s, g, i))
      || Progresses(c, s, i)
  {
    hide Core, Allowed, Cycle, Outcome, Plain, Content, Tiled, Sourced, MemoryRight, Total, Length, Progresses;
    if s.ft.state == Iddle { StillEmpty(c, s, g); }
    if s.ft.state == Bc6 {
      ReturnSteps(c, s, i);
    } else {
      ProgressStep(c, s, i, |g.beats|, |g.samples|, Total(g.bursts));
    }
  }

  /** The transfer takes a bounded number of cycles beyond those that others cost it. */
  lemma {:induction false} RunReturns(c: Config, s: System, g: Log, cycles: seq<In>)
    requires Plain(c) && Inv(c, s, g) && AllAllowed(c, s, g, cycles)
    requires |cycles| > Measure(c, s) + StallCount(c, s, g, cycles) + 13 * RefusalCount(c, s, g, cycles)
    ensures Returned(Run(c, s, g, cycles).0, Run(c, s, g, cycles).1)
    decreases |cycles|
  {
    hide Inv, Allowed, Cycle, Observe, Plain, Measure, Stalls, Refused;
    if !Returned(s, g) {
      InvStep(c, s, g, cycles[0]);
      ProgressOf(c, s, g, cycles[0]);
      if !Returned(Cycle(c, s, cycles[0]), Observe(c, s, g, cycles[0])) {
        RunReturns(c, Cycle(c, s, cycles[0]), Observe(c, s, g, cycles[0]), cycles[1..]);
      }
    }
  }

  lemma InvDone(c: Config, s: System, g: Log)
    requires Plain(c) && Inv(c, s, g) && Returned(s, g)
    ensures Done(c, s, g)
  {
    hide Split, Total, SourcesRight;
    SplitEnds(c);
    assert g.bursts + Split(c, Total(g.bursts)) == Split(c, 0);
    assert g.bursts + [] == g.bursts;
  }

  lemma SplitEnds(c: Config)
    ensures Split(c, c.desc0.count) == []
  {
  }

  /** From sleep, for every word count, payload of at least two words, descriptor and
      sequence of stalls, refusals and retries: once the engine is back asleep, the first
      bus has carried exactly the words sampled on the second, in bursts that tile the
      destination, followed by one broadcast; the GO bit is clear and the engine is ready
      for another transfer. */
  lemma TransferIsRight(c: Config, s: System, cycles: seq<In>)
    requires Plain(c) && IsIdle(s) && AllAllowed(c, s, EMPTY, cycles)
    ensures
      var (t, h) := Run(c, s, EMPTY, cycles);
      Returned(t, h) ==> Done(c, t, h)
  {
    hide Inv, Done, Plain, Returned;
    IdleInv(c, s);
    RunKeeps(c, s, EMPTY, cycles);
    var (t, h) := Run(c, s, EMPTY, cycles);
    if Returned(t, h) {
      InvDone(c, t, h);
    }
  }

  /** And it gets there: with finitely many stalls and refusals, in a number of cycles
      linear in the number of words. */
  lemma TransferEnds(c: Config, s: System, cycles: seq<In>)
    requires Plain(c) && IsIdle(s) && AllAllowed(c, s, EMPTY, cycles)
    requires
      |cycles| > 16 * c.desc0.count + 11 + StallCount(c, s, EMPTY, cycles) + 13 * RefusalCount(c, s, EMPTY, cycles)
    ensures Returned(Run(c, s, EMPTY, cycles).0, Run(c, s, EMPTY, cycles).1)
  {
    hide Inv, Returned;
    IdleInv(c, s);
    RunReturns(c, s, EMPTY, cycles);
  }

  /** Nobody disturbs the engine in this cycle: both buses are granted at once, both
      partners answer, and software leaves the commands and the GO bit alone. */
  predicate Calm(i: In) {
    && !i.cmdReset && !i.cmdGo && !i.cmdAbort && !i.writeGo0
    && !i.ebErr && i.ebDk && i.ebBft && !i.ebBmx
    && !i.eb2Err && i.eb2Dk && i.eb2Bg && !i.eb2Bmx && !i.eb2Bft
  }

  /** What keeps an undisturbed engine from waiting. */
  predicate Moves(s: System) {
    && (s.ft.state == Iddle || s.ft.state == Wait0 ==> s.go.go0)
    && (s.ft.state == Brq3 ==> s.mx.state == MxBrq1)
  }

  lemma CalmAllowed(s: System, i: In)
    requires Calm(i)
    ensures Allowed(s, i)
    ensures Moves(s) ==> !Stalls(s, i) && !Refused(s, i)
  {
  }

  lemma GoStays(c: Config, s: System, i: In)
    requires Plain(c) && Calm(i) && !s.go.done0 && s.go.go0 && (s.ft.state == Iddle || s.ft.state == Wait0)
    ensures Moves(Cycle(c, s, i))
  {
    hide Requesting, Moving, Ending, Aborting, MxNext;
  }

  lemma GrantFollows(c: Config, s: System, i: In)
    requires Calm(i) && s.ft.state == Brq2 && s.mx.state == MxIddle
    ensures Moves(Cycle(c, s, i))
  {
    hide Sleeping, Moving, Ending, Aborting, GoNext;
  }

  lemma ElsewhereBefore(c: Config, s: System, b: nat, w: nat, d: nat, i: In)
    requires Plain(c) && Core(c, s, b, w, d) && Calm(i)
    requires s.ft.state in {Wait2, Brq1, Brq3, Brq9}
    ensures Moves(Cycle(c, s, i))
  {
    hide MxNext, GoNext, Final, Fresh, Prepared, Aimed, Length, Retiring, Within, Inc, Moving, Ending, Aborting;
  }

  lemma ElsewhereMoving(c: Config, s: System, b: nat, w: nat, d: nat, i: In)
    requires Plain(c) && Core(c, s, b, w, d) && Calm(i)
    requires s.ft.state in {Adr1, Adr2, Dat1, Dat01, Dat2}
    ensures Moves(Cycle(c, s, i))
  {
    hide MxNext, GoNext, Final, Fresh, Prepared, Aimed, Length, Retiring, Within, Inc, Sleeping, Requesting, Ending,
         Aborting;
  }

  lemma ElsewhereAfter(c: Config, s: System, b: nat, w: nat, d: nat, i: In)
    requires Plain(c) && Core(c, s, b, w, d) && Calm(i)
    requires s.ft.state in {End1, End2, Bc1, Bc2, Bc3, Bc4, Bc5}
    ensures Moves(Cycle(c, s, i))
  {
    hide MxNext, GoNext, Final, Fresh, Prepared, Aimed, Length, Retiring, Within, Inc, Sleeping, Requesting, Moving,
         Aborting;
  }

  lemma Elsewhere(c: Config, s: System, b: nat, w: nat, d: nat, i: In)
    requires Plain(c) && Core(c, s, b, w, d) && Calm(i)
    requires s.ft.state !in {Iddle, Wait0, Brq2, Bc6}
    ensures Moves(Cycle(c, s, i))
  {
    hide Cycle, Plain, Calm, Moves, Final, Fresh, Prepared, Aimed, Length, Retiring;
    match s.ft.state
    case Wait2 | Brq1 | Brq3 | Brq9 => ElsewhereBefore(c, s, b, w, d, i);
    case Adr1 | Adr2 | Dat1 | Dat01 | Dat2 => ElsewhereMoving(c, s, b, w, d, i);
    case End1 | End2 | Bc1 | Bc2 | Bc3 | Bc4 | Bc5 => ElsewhereAfter(c, s, b, w, d, i);
    case _ =>
  }

  lemma CalmStep(c: Config, s: System, g: Log, i: In)
    requires Plain(c) && Inv(c, s, g) && Moves(s) && Calm(i) && !Returned(s, g)
    ensures Moves(Cycle(c, s, i)) || Returned(Cycle(c, s, i), Observe(c, s, g, i))
  {
    hide Core, Cycle, Plain, Content, Tiled, Sourced, Total, Moves, Calm;
    match s.ft.state
    case Iddle | Wait0 => GoSet(c, s, g); GoStays(c, s, i);
    case Brq2 => IdleBefore(c, s, g); GrantFollows(c, s, i);
    case Bc6 => ReturnSteps(c, s, i);
    case _ => Elsewhere(c, s, |g.beats|, |g.samples|, Total(g.bursts), i);
  }

  lemma GoSet(c: Config, s: System, g: Log)
    requires Inv(c, s, g) && Moves(s) && (s.ft.state == Iddle || s.ft.state == Wait0)
    ensures s.go.go0 && !s.go.done0
  {
    hide Core, Content, Tiled, Sourced, Total;
  }

  lemma {:induction false} CalmRun(c: Config, s: System, g: Log, cycles: seq<In>)
    requires Plain(c) && Inv(c, s, g) && (Moves(s) || Returned(s, g))
    requires forall k :: 0 <= k < |cycles| ==> Calm(cycles[k])
    ensures AllAllowed(c, s, g, cycles) && StallCount(c, s, g, cycles) == 0 == RefusalCount(c, s, g, cycles)
    decreases |cycles|
  {
    hide Inv, Calm, Moves, Allowed, Cycle, Observe, Plain, Returned, Stalls, Refused;
    if cycles != [] && !Returned(s, g) {
      CalmAllowed(s, cycles[0]);
      InvStep(c, s, g, cycles[0]);
      CalmStep(c, s, g, cycles[0]);
      CalmRun(c, Cycle(c, s, cycles[0]), Observe(c, s, g, cycles[0]), cycles[1..]);
    }
  }

  /** Left alone, the engine carries out every transfer. */
  lemma UndisturbedTransfer(c: Config, s: System, cycles: seq<In>)
    requires Plain(c) && IsIdle(s) && s.go.go0
    requires |cycles| > 16 * c.desc0.count + 11 && forall k :: 0 <= k < |cycles| ==> Calm(cycles[k])
    ensures
      var (t, h) := Run(c, s, EMPTY, cycles);
      AllAllowed(c, s, EMPTY, cycles) && Returned(t, h) && Done(c, t, h)
  {
    hide Inv, Calm, Done, Plain, Returned, StallCount, RefusalCount, AllAllowed, Run;
    IdleInv(c, s);
    CalmRun(c, s, EMPTY, cycles);
    TransferEnds(c, s, cycles);
    TransferIsRight(c, s, cycles);
  }

  lemma GoWritten(c: Config, s: System, i: In)
    requires IsIdle(s) && !i.cmdReset && !i.cmdGo && i.writeGo0 && i.goValue0 && !s.go.go0
    ensures IsIdle(Cycle(c, s, i)) && Cycle(c, s, i).go.go0
  {
    hide Requesting, Moving, Ending, Aborting, Within, Inc;
  }

  /** And it does so when software sets the GO bit of the sleeping engine. */
  lemma WrittenTransfer(c: Config, s: System, i: In, cycles: seq<In>)
    requires Plain(c) && IsIdle(s) && !s.go.go0 && !i.cmdReset && !i.cmdGo && i.writeGo0 && i.goValue0
    requires |cycles| > 16 * c.desc0.count + 11 && forall k :: 0 <= k < |cycles| ==> Calm(cycles[k])
    ensures
      var (t, h) := Run(c, Cycle(c, s, i), EMPTY, cycles);
      Returned(t, h) && Done(c, t, h)
  {
    hide IsIdle, Plain, Calm, Run, Returned, Done, Cycle;
    GoWritten(c, s, i);
    UndisturbedTransfer(c, Cycle(c, s, i), cycles);
  }

  lemma IdleBefore(c: Config, s: System, g: Log)
    requires Inv(c, s, g) && s.ft.state in {Brq1, Brq2, End1}
    ensures s.mx.state == MxIddle && !s.mx.ebmx
  {
    hide Split, Total, Closing, Content, Tiled, Sourced;
  }

  /** In every cycle of a transfer in which a burst is about to be requested, the source
      master has come back from the burst before and does not hold its bus. */
  lemma SourceIdleBeforeRequest(c: Config, s: System, cycles: seq<In>)
    requires Plain(c) && IsIdle(s) && AllAllowed(c, s, EMPTY, cycles)
    ensures
      var t := Run(c, s, EMPTY, cycles).0;
      t.ft.state in {Brq1, Brq2, End1} ==> t.mx.state == MxIddle && !t.mx.ebmx
  {
    hide Inv, Plain;
    IdleInv(c, s);
    RunKeeps(c, s, EMPTY, cycles);
    var (t, h) := Run(c, s, EMPTY, cycles);
    if t.ft.state in {Brq1, Brq2, End1} {
      IdleBefore(c, t, h);
    }
  }

  // ---------------------------------------------------------------------------
  // The tiling itself
  // ---------------------------------------------------------------------------

  lemma {:induction false} TotalJoin(a: seq<Burst>, b: seq<Burst>)
    ensures Total(a + b) == Total(a) + Total(b)
    decreases |b|
  {
    if b == [] {
      assert a + b == a;
    } else {
      TotalJoin(a, b[..|b| - 1]);
      assert (a + b)[..|a + b| - 1] == a + b[..|b| - 1];
    }
  }

  /** Nothing is left out and nothing is moved twice. */
  lemma {:induction false} SplitTotal(c: Config, d: nat)
    requires d <= c.desc0.count && c.payload >= 1
    ensures Total(Split(c, d)) == c.desc0.count - d
    decreases c.desc0.count - d
  {
    if d < c.desc0.count {
      var x := Burst(c.desc0.dest + 8 * d, Length(c, d));
      SplitTotal(c, d + Length(c, d));
      TotalJoin([x], Split(c, d + Length(c, d)));
      assert [x][..0] == [];
    }
  }

  /** The `k`-th burst starts where the words before it end, and is a full payload or all
      that remains. */
  lemma {:induction false} SplitShape(c: Config, d: nat, k: nat)
    requires d <= c.desc0.count && c.payload >= 1 && k < |Split(c, d)|
    ensures
      var at := d + Total(Split(c, d)[..k]);
      && at < c.desc0.count
      && Split(c, d)[k] == Burst(c.desc0.dest + 8 * at,
           if c.desc0.count - at < c.payload then c.desc0.count - at else c.payload)
    decreases k
  {
    var x := Burst(c.desc0.dest + 8 * d, Length(c, d));
    var rest := Split(c, d + Length(c, d));
    assert Split(c, d) == [x] + rest;
    if k > 0 {
      SplitShape(c, d + Length(c, d), k - 1);
      assert Split(c, d)[..k] == [x] + rest[..k - 1];
      TotalJoin([x], rest[..k - 1]);
      assert [x][..0] == [];
    }
  }

  lemma {:induction false} LastLength(c: Config, d: nat)
    requires d < c.desc0.count && c.payload >= 1
    ensures
      var r := Wrap(c.desc0.count - d, c.payload);
      Split(c, d) != [] && LastOf(Split(c, d)) == if r == 0 then c.payload else r
    decreases c.desc0.count - d
  {
    var x := Burst(c.desc0.dest + 8 * d, Length(c, d));
    var rest := Split(c, d + Length(c, d));
    assert Split(c, d) == [x] + rest;
    if d + c.payload < c.desc0.count {
      LastLength(c, d + c.payload);
    } else {
      assert rest == [];
    }
  }

  /** The moved-word status is the number of words exactly when the last burst is not a
      single word; otherwise it is one more. */
  lemma StatusExact(c: Config)
    requires Plain(c)
    ensures StatusOf(c, LastOf(Split(c, 0))) == c.desc0.count <==> c.desc0.count % c.payload != 1
    ensures c.desc0.count % c.payload == 1 ==> StatusOf(c, LastOf(Split(c, 0))) == (c.desc0.count + 1) % COUNT
  {
    LastLength(c, 0);
    WrapIsRemainder(c.desc0.count, c.payload);
  }

  function Example(count: nat, source: nat, payload: nat): Config {
    var d := Descriptor(false, false, false, false, false, count, 0, 0, source);
    Config(d, d, payload)
  }

  /** Five words in payloads of four: every undisturbed transfer ends with the status six. */
  lemma StatusOffByOne(s: System, cycles: seq<In>)
    requires IsIdle(s) && s.go.go0 && |cycles| > 91 && forall k :: 0 <= k < |cycles| ==> Calm(cycles[k])
    ensures var (t, h) := Run(Example(5, 0, 4), s, EMPTY, cycles); Returned(t, h) && |h.beats| == 5 && t.ft.sts0 == 6
  {
    hide Run, Calm, Split, Done, StatusOf, Example, IsIdle, Returned;
    ExampleStatus();
    UndisturbedTransfer(Example(5, 0, 4), s, cycles);
    var (t, h) := Run(Example(5, 0, 4), s, EMPTY, cycles);
    DoneStatus(Example(5, 0, 4), t, h);
  }

  lemma ExampleStatus()
    ensures var c := Example(5, 0, 4); Plain(c) && c.desc0.count == 5 && StatusOf(c, LastOf(Split(c, 0))) == 6
  {
    hide Split;
    StatusExact(Example(5, 0, 4));
  }

  lemma DoneStatus(c: Config, s: System, g: Log)
    requires Done(c, s, g)
    ensures |g.beats| == c.desc0.count && s.ft.sts0 == StatusOf(c, LastOf(Split(c, 0)))
  {
  }

  predicate SourcesExact(c: Config) {
    forall k :: 0 <= k < |Split(c, 0)| ==> Exact(c, Total(Split(c, 0)[..k]))
  }

  /** The address issued after `d` words is the address of the next word. */
  predicate Exact(c: Config, d: nat) {
    IssuedAddress(c.desc0.segment, c.desc0.source + d) == c.desc0.segment * OFFSET + c.desc0.source + d
  }

  lemma ExactIs(c: Config, d: nat)
    ensures Exact(c, d) <==> (c.desc0.source + d) % 4 == 0
  {
  }

  lemma PlainPayload(c: Config)
    requires Plain(c)
    ensures c.payload >= 1
  {
  }

  lemma FoursAdd(a: nat, b: nat)
    requires a % 4 == 0 && b % 4 == 0
    ensures (a + b) % 4 == 0
  {
  }

  lemma {:induction false} FullPayloads(c: Config, k: nat)
    requires Plain(c) && k < |Split(c, 0)| && c.payload % 4 == 0
    ensures Total(Split(c, 0)[..k]) % 4 == 0
  {
    hide Split, Plain;
    assert c.payload >= 1 by { PlainPayload(c); }
    var bs := Split(c, 0);
    if k == 0 {
      assert bs[..0] == [];
    } else {
      FullPayloads(c, k - 1);
      SplitShape(c, 0, k - 1);
      SplitShape(c, 0, k);
      assert bs[..k][..k - 1] == bs[..k - 1] && bs[..k][k - 1] == bs[k - 1];
      assert bs[k - 1].length == c.payload;
      FoursAdd(Total(bs[..k - 1]), c.payload);
    }
  }

  lemma FirstBurst(c: Config)
    requires Plain(c)
    ensures |Split(c, 0)| >= 1 && Total(Split(c, 0)[..0]) == 0 && c.payload >= 1
    ensures c.desc0.count <= c.payload ==> |Split(c, 0)| == 1
  {
    assert Split(c, 0)[..0] == [];
  }

  lemma SecondBurst(c: Config)
    requires Plain(c) && c.desc0.count > c.payload
    ensures |Split(c, 0)| >= 2 && Total(Split(c, 0)[..1]) == c.payload
  {
    var bs := Split(c, 0);
    assert bs == [bs[0]] + Split(c, c.payload) && bs[0].length == c.payload;
    assert bs[..1] == [bs[0]] && [bs[0]][..0] == [];
  }

  /** The source address issued for each burst has its two low bits cleared: every burst
      reads from where its first word is exactly when the source offset, and for more than
      one burst the payload, are multiples of four words. */
  lemma SourceAddressesExact(c: Config)
    requires Plain(c)
    ensures SourcesExact(c) <==> c.desc0.source % 4 == 0 && (c.desc0.count <= c.payload || c.payload % 4 == 0)
  {
    hide Exact, Split, Total, Plain;
    FirstBurst(c);
    ExactIs(c, 0);
    if c.desc0.count > c.payload {
      SecondBurst(c);
      ExactIs(c, c.payload);
      if c.desc0.source % 4 == 0 && c.payload % 4 == 0 {
        forall k | 0 <= k < |Split(c, 0)| ensures Exact(c, Total(Split(c, 0)[..k])) {
          FullPayloads(c, k);
          ExactIs(c, Total(Split(c, 0)[..k]));
          FoursAdd(c.desc0.source, Total(Split(c, 0)[..k]));
        }
      } else if c.desc0.source % 4 == 0 {
        FoursDiffer(c.desc0.source, c.payload);
      }
    }
  }

  lemma FoursDiffer(a: nat, b: nat)
    requires a % 4 == 0 && b % 4 != 0
    ensures (a + b) % 4 != 0
  {
  }

  lemma ExampleSplit()
    ensures Split(Example(8, 0, 5), 0) == [Burst(0, 5), Burst(40, 3)]
  {
    var c := Example(8, 0, 5);
    assert Split(c, 8) == [] && Split(c, 5) == [Burst(40, 3)];
  }

  lemma SecondSource(c: Config, bursts: seq<Burst>, sources: seq<(nat, nat)>)
    requires SourcesRight(c, bursts, sources) && |sources| == |bursts| == 2
    ensures sources[1] == (IssuedAddress(c.desc0.segment, c.desc0.source + bursts[0].length), bursts[0].length)
  {
    hide IssuedAddress;
    assert bursts[..1][..0] == [] && Total([]) == 0;
    assert Total(bursts[..1]) == bursts[0].length;
    assert SourceRight(c, bursts, sources[1], 1);
  }

  lemma DoneSources(c: Config, s: System, g: Log)
    requires Done(c, s, g)
    ensures g.bursts == Split(c, 0) && |g.sources| == |g.bursts| && SourcesRight(c, g.bursts, g.sources)
  {
    hide Split, Total, Tiled, SourcesRight;
  }

  lemma IssuedFour()
    ensures IssuedAddress(0, 5) == 4
  {
  }

  /** Eight words in payloads of five: in every undisturbed transfer the second burst is to
      move the words from number five on, and the address issued for it is that of word
      number four. */
  lemma SourceAddressOff(s: System, cycles: seq<In>)
    requires IsIdle(s) && s.go.go0 && |cycles| > 139 && forall k :: 0 <= k < |cycles| ==> Calm(cycles[k])
    ensures
      var (t, h) := Run(Example(8, 0, 5), s, EMPTY, cycles);
      Returned(t, h) && |h.sources| == 2 && h.sources[1] == (4, 5)
  {
    hide Run, Calm, Split, SourcesRight, Done, Returned, IsIdle, IssuedAddress;
    UndisturbedTransfer(Example(8, 0, 5), s, cycles);
    ExampleSplit();
    var (t, h) := Run(Example(8, 0, 5), s, EMPTY, cycles);
    DoneSources(Example(8, 0, 5), t, h);
    SecondSource(Example(8, 0, 5), h.bursts, h.sources);
    assert IssuedAddress(0, 5) == 4 by { IssuedFour(); }
  }
}
