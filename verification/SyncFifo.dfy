/** The entities fifo_s (memory ring) and fifo_srl (shift register): two implementations
    of one bounded queue.  Both start in the state their reset leaves. */
module SyncFifo {
  import opened Modular
  import opened BoundedQueue

  function Minus(v: nat, d: nat, m: nat): (r: nat)
    requires v < m && d <= m
    ensures r < m
  {
    if v >= d then v - d else v - d + m
  }

  /** What the pointers of the ring say about a queue of `n` words whose first word is the
      `r`-th read since reset: wr_ptr is `n` counts ahead of the next word to read, rd_ptr
      one behind it. */
  lemma RingFlags(r: nat, n: nat, depth: nat)
    requires depth >= 2 && n <= depth
    ensures
      var m := 2 * depth;
      var wr, rd := Wrap(r + n, m), Wrap(r + m - 1, m);
      && (Address(wr, depth) == Address(rd, depth) && (wr < depth <==> rd >= depth) <==> n + 1 == depth)
      && (rd == Minus(wr, 2, m) <==> n == 1)
      && Minus(Minus(wr, 1, m), rd, m) == n
  {
    var m := 2 * depth;
    WrapAdvance(r + m - 1, n + 1, m);
    assert Wrap(r + n + m, m) == Wrap(r + n, m);
  }

  lemma PointerAdvances(v: nat, m: nat)
    requires m >= 2
    ensures PlusOne(Wrap(v, m), m) == Wrap(v + 1, m)
  {
    WrapAdvance(v, 1, m);
  }

  /** The memorised flags, from the almost flags and the requests. */
  function FullNext(almostFull: bool, full: bool, wrEn: bool, rdEn: bool): bool {
    !rdEn && ((almostFull && wrEn) || full)
  }

  function EmptyNext(almostEmpty: bool, empty: bool, wrEn: bool, rdEn: bool): bool {
    !wrEn && ((almostEmpty && rdEn) || empty)
  }

  lemma MemorisedFlagsFollow<T>(s: State<T>, i: Input<T>)
    requires |s.words| <= s.depth && s.depth >= 2
    ensures
      var f, t := FlagsOf(s), Edge(s, i);
      && (|t.words| == s.depth <==> FullNext(f.almostFull, f.full, i.wrEn, i.rdEn))
      && (t.words == [] <==> EmptyNext(f.almostEmpty, f.empty, i.wrEn, i.rdEn))
      && Puts(s, i) == (i.wrEn && !f.full) && Gets(s, i) == (i.rdEn && !f.empty)
    ensures |Edge(s, i).words| == |s.words| + (if Puts(s, i) then 1 else 0) - (if Gets(s, i) then 1 else 0) <= s.depth
    ensures Edge(s, i).depth == s.depth && Edge(s, i).count == |s.words|
    ensures Edge(s, i).popped == if Gets(s, i) then [s.words[0]] else []
  {
  }

  lemma RingAddresses(r: nat, n: nat, depth: nat)
    requires depth >= 2
    ensures Address(Wrap(r + n, 2 * depth), depth) == Wrap(r + n, depth)
    ensures Address(Wrap(r + 2 * depth - 1, 2 * depth), depth) == Wrap(r + depth - 1, depth)
    ensures Wrap(r + 1 + depth - 1, depth) == Wrap(r, depth)
  {
    WrapHalf(r + n, depth);
    WrapHalf(r + 2 * depth - 1, depth);
    assert Wrap(r + 2 * depth - 1, depth) == Wrap(r + depth - 1, depth);
  }

  /** The ring holds `words` from slot `r` on. */
  ghost predicate RingHolds<T>(ram: seq<T>, words: seq<T>, r: nat) {
    |ram| >= 1 && forall i :: 0 <= i < |words| ==> InSlot(ram, r + i) == words[i]
  }

  function InSlot<T>(ram: seq<T>, k: nat): T
    requires |ram| >= 1
  {
    ram[Wrap(k, |ram|)]
  }

  lemma RingPut<T>(ram: seq<T>, words: seq<T>, r: nat, dat: T)
    requires RingHolds(ram, words, r) && |words| < |ram|
    ensures RingHolds(ram[Wrap(r + |words|, |ram|) := dat], words + [dat], r)
  {
    var ram' := ram[Wrap(r + |words|, |ram|) := dat];
    forall i | 0 <= i <= |words|
      ensures InSlot(ram', r + i) == (words + [dat])[i]
    {
      if i < |words| {
        WrapDistinct(r + i, r + |words|, |ram|);
        assert InSlot(ram, r + i) == words[i];
      }
    }
  }

  lemma RingGet<T>(ram: seq<T>, words: seq<T>, r: nat)
    requires RingHolds(ram, words, r) && words != []
    ensures RingHolds(ram, words[1..], r + 1) && InSlot(ram, r) == words[0]
  {
    assert InSlot(ram, r + 0) == words[0];
    forall i | 0 <= i < |words[1..]|
      ensures InSlot(ram, r + 1 + i) == words[1..][i]
    {
      assert InSlot(ram, r + (i + 1)) == words[i + 1];
    }
  }

  /** A put made while a word leaves does not reach the slot of that word. */
  lemma RingEdge<T>(ram: seq<T>, s: State<T>, i: Input<T>, r: nat)
    requires RingHolds(ram, s.words, r) && |s.words| <= |ram| == s.depth
    ensures
      var ram' := if Puts(s, i) then ram[Wrap(r + |s.words|, s.depth) := i.wrDat] else ram;
      var r' := if Gets(s, i) then r + 1 else r;
      && RingHolds(ram', Edge(s, i).words, r')
      && (Gets(s, i) ==> InSlot(ram', r) == s.words[0])
  {
    if Puts(s, i) {
      RingPut(ram, s.words, r, i.wrDat);
      var ram' := ram[Wrap(r + |s.words|, s.depth) := i.wrDat];
      if Gets(s, i) {
        RingGet(ram', s.words + [i.wrDat], r);
        assert (s.words + [i.wrDat])[1..] == s.words[1..] + [i.wrDat];
      }
    } else if Gets(s, i) {
      RingGet(ram, s.words, r);
    }
  }

  /** Pointer and flag registers of the ring. */
  datatype RingRegs = RingRegs(wrPtr: nat, rdPtr: nat, wrPtrS: nat, rdPtrS: nat, full: bool, empty: bool)

  predicate InRange(q: RingRegs, depth: nat) {
    depth >= 2 && q.wrPtr < 2 * depth && q.rdPtr < 2 * depth && q.wrPtrS < 2 * depth && q.rdPtrS < 2 * depth
  }

  predicate RingAlmostFull(q: RingRegs, depth: nat)
    requires InRange(q, depth)
  {
    Address(q.wrPtr, depth) == Address(q.rdPtr, depth) && (q.wrPtr < depth <==> q.rdPtr >= depth)
  }

  predicate RingAlmostEmpty(q: RingRegs, depth: nat)
    requires InRange(q, depth)
  {
    q.rdPtr == Minus(q.wrPtr, 2, 2 * depth)
  }

  function RingNext(q: RingRegs, wrEn: bool, rdEn: bool, depth: nat): RingRegs
    requires InRange(q, depth)
  {
    var m := 2 * depth;
    RingRegs(if wrEn && !q.full then PlusOne(q.wrPtr, m) else q.wrPtr,
             if rdEn && !q.empty then PlusOne(q.rdPtr, m) else q.rdPtr,
             Minus(q.wrPtr, 1, m), q.rdPtr,
             FullNext(RingAlmostFull(q, depth), q.full, wrEn, rdEn),
             EmptyNext(RingAlmostEmpty(q, depth), q.empty, wrEn, rdEn))
  }

  /** The registers stand for the queue `s` after `r` accepted reads. */
  predicate RingMatches<T>(q: RingRegs, s: State<T>, r: nat) {
    var m := 2 * s.depth;
    && InRange(q, s.depth) && |s.words| <= s.depth
    && q.wrPtr == Wrap(r + |s.words|, m) && q.rdPtr == Wrap(r + m - 1, m)
    && Minus(q.wrPtrS, q.rdPtrS, m) == s.count
    && (q.full <==> |s.words| == s.depth) && (q.empty <==> |s.words| == 0)
  }

  lemma RingRegsFollow<T>(q: RingRegs, s: State<T>, i: Input<T>, r: nat)
    requires RingMatches(q, s, r)
    ensures RingMatches(RingNext(q, i.wrEn, i.rdEn, s.depth), Edge(s, i), if Gets(s, i) then r + 1 else r)
    ensures Puts(s, i) == (i.wrEn && !q.full) && Gets(s, i) == (i.rdEn && !q.empty)
  {
    hide Wrap, Minus, PlusOne, Edge, Puts, Gets, FullNext, EmptyNext;
    var m, n := 2 * s.depth, |s.words|;
    RingFlags(r, n, s.depth);
    MemorisedFlagsFollow(s, i);
    PointerAdvances(r + n, m);
    PointerAdvances(r + m - 1, m);
  }

  lemma RingAccess<T>(q: RingRegs, ram: seq<T>, s: State<T>, i: Input<T>, r: nat)
    requires RingMatches(q, s, r) && RingHolds(ram, s.words, r) && |ram| == s.depth
    ensures
      var ram' := if i.wrEn && !q.full then ram[Address(q.wrPtr, s.depth) := i.wrDat] else ram;
      && RingHolds(ram', Edge(s, i).words, if Gets(s, i) then r + 1 else r)
      && (Gets(s, i) ==> InSlot(ram', r) == s.words[0])
    ensures r > 0 ==> ram[Address(q.rdPtr, s.depth)] == InSlot(ram, r - 1)
  {
    hide Wrap, Edge, RingHolds, InSlot;
    RingAddresses(r, |s.words|, s.depth);
    RingEdge(ram, s, i, r);
    if r > 0 { LastReadSlot(ram, r); }
  }

  /** The entity fifo_s. */
  class RingFifo<T(0)> {
    const depth: nat
    const dpram: array<T>
    var rdPtr: nat
    var wrPtr: nat
    var rdPtrS: nat
    var wrPtrS: nat
    var rdEmpti: bool
    var wrFulli: bool
    var rdDat: T

    ghost var queue: State<T>
    ghost var taken: nat

    function Regs(): RingRegs
      reads this
    {
      RingRegs(wrPtr, rdPtr, wrPtrS, rdPtrS, wrFulli, rdEmpti)
    }

    ghost predicate Valid()
      reads this, dpram
    {
      && dpram.Length == depth == queue.depth
      && RingMatches(Regs(), queue, taken)
      && RingHolds(dpram[..], queue.words, taken)
      && (queue.popped != [] ==> |queue.popped| == 1 && taken > 0 && InSlot(dpram[..], taken - 1) == queue.popped[0])
    }

    constructor (n: nat)
      requires n >= 2
      ensures Valid() && fresh(dpram) && queue == State(n, [], 0, [])
    {
      depth := n;
      dpram := new T[n];
      wrPtr, rdPtr := 0, 2 * n - 1;
      wrPtrS, rdPtrS := 2 * n - 1, 2 * n - 1;
      wrFulli, rdEmpti := false, true;
      rdDat := *;
      queue := State(n, [], 0, []);
      taken := 0;
    }

    function Outputs(): (f: Flags)
      requires Valid()
      reads this, dpram
      ensures f == FlagsOf(queue)
    {
      RingFlags(taken, |queue.words|, depth);
      Flags(wrFulli, rdEmpti, RingAlmostFull(Regs(), depth), RingAlmostEmpty(Regs(), depth),
            Minus(wrPtrS, rdPtrS, 2 * depth))
    }

    /** The clocked processes: memory, pointers and memorised flags. */
    method ClockProcesses(wrEn: bool, wrDat: T, rdEn: bool)
      requires InRange(Regs(), depth) && dpram.Length == depth
      modifies this`wrPtr, this`rdPtr, this`wrPtrS, this`rdPtrS, this`wrFulli, this`rdEmpti, this`rdDat, dpram
      ensures Regs() == RingNext(old(Regs()), wrEn, rdEn, depth)
      ensures rdDat == old(dpram[..])[Address(old(rdPtr), depth)]
      ensures
        dpram[..] == if wrEn && !old(wrFulli) then old(dpram[..])[Address(old(wrPtr), depth) := wrDat]
                     else old(dpram[..])
    {
      var m := 2 * depth;
      var wrEnS, rdEnS := wrEn && !wrFulli, rdEn && !rdEmpti;
      var wrAfulli, rdAempti := RingAlmostFull(Regs(), depth), RingAlmostEmpty(Regs(), depth);
      rdDat := dpram[Address(rdPtr, depth)];
      if wrEnS {
        dpram[Address(wrPtr, depth)] := wrDat;
      }
      if rdEn {
        wrFulli := false;
      } else if (wrAfulli && wrEn) || wrFulli {
        wrFulli := true;
      }
      if wrEn {
        rdEmpti := false;
      } else if (rdAempti && rdEn) || rdEmpti {
        rdEmpti := true;
      }
      wrPtrS, rdPtrS := Minus(wrPtr, 1, m), rdPtr;
      if wrEnS {
        wrPtr := PlusOne(wrPtr, m);
      }
      if rdEnS {
        rdPtr := PlusOne(rdPtr, m);
      }
    }

    /** One rising edge after reset.  The read register takes the old content of the
        memory, so a word popped by an edge is shown by the next one. */
    method ClockEdge(wrEn: bool, wrDat: T, rdEn: bool)
      requires Valid()
      modifies this, dpram
      ensures Valid() && queue == Edge(old(queue), Input(wrEn, wrDat, rdEn))
      ensures old(queue).popped != [] ==> rdDat == old(queue).popped[0]
    {
      hide RingMatches, RingHolds, RingNext, InSlot, Edge, Gets, Puts;
      ghost var s, i := queue, Input(wrEn, wrDat, rdEn);
      RingRegsFollow(Regs(), s, i, taken);
      RingAccess(Regs(), dpram[..], s, i, taken);
      EdgeShape(s, i);
      MatchInRange(Regs(), s, taken);
      ClockProcesses(wrEn, wrDat, rdEn);
      taken := if Gets(s, i) then taken + 1 else taken;
      queue := Edge(s, i);
    }
  }

  lemma MatchInRange<T>(q: RingRegs, s: State<T>, r: nat)
    requires RingMatches(q, s, r)
    ensures InRange(q, s.depth)
  {
  }

  lemma EdgeShape<T>(s: State<T>, i: Input<T>)
    ensures Edge(s, i).depth == s.depth
    ensures Edge(s, i).popped == if Gets(s, i) then [s.words[0]] else []
  {
  }

  lemma LastReadSlot<T>(ram: seq<T>, r: nat)
    requires |ram| >= 2 && r > 0
    ensures
      var m := 2 * |ram|;
      InSlot(ram, r - 1) == ram[Address(Wrap(r + m - 1, m), |ram|)]
  {
    RingAddresses(r, 0, |ram|);
    assert Wrap(r - 1 + |ram|, |ram|) == Wrap(r - 1, |ram|);
  }

  /** The entity fifo_srl. */
  class ShiftFifo<T(0)> {
    const depth: nat
    const srlf: array<T>
    var rdPtr: nat
    var rdEmpti: bool
    var wrFulli: bool
    var wrCnt: nat
    var rdDat: T

    ghost var queue: State<T>

    /** The newest word is at index 0, the oldest at rd_ptr. */
    ghost predicate Valid()
      reads this, srlf
    {
      && depth >= 2 && srlf.Length == depth == queue.depth && |queue.words| <= depth
      && rdPtr == (if queue.words == [] then depth - 1 else |queue.words| - 1)
      && NewestFirst(srlf[..], queue.words)
      && (wrFulli <==> |queue.words| == depth) && (rdEmpti <==> queue.words == [])
      && wrCnt == queue.count
      && (queue.popped != [] ==> |queue.popped| == 1 && rdDat == queue.popped[0])
    }

    constructor (n: nat)
      requires n >= 2
      ensures Valid() && fresh(srlf) && queue == State(n, [], 0, [])
    {
      depth := n;
      srlf := new T[n];
      rdPtr := n - 1;
      wrFulli, rdEmpti := false, true;
      wrCnt := 0;
      rdDat := *;
      queue := State(n, [], 0, []);
    }

    function Outputs(): (f: Flags)
      requires Valid()
      reads this, srlf
      ensures f == FlagsOf(queue)
    {
      Flags(wrFulli, rdEmpti, rdPtr == depth - 2, rdPtr == 0, wrCnt)
    }

    method Shift(wrDat: T)
      requires srlf.Length >= 1
      modifies srlf
      ensures srlf[..] == [wrDat] + old(srlf[..])[..srlf.Length - 1]
    {
      var i := srlf.Length - 1;
      while i > 0
        invariant 0 <= i < srlf.Length
        invariant forall k :: 0 <= k <= i ==> srlf[k] == old(srlf[k])
        invariant forall k :: i < k < srlf.Length ==> srlf[k] == old(srlf[k - 1])
      {
        srlf[i] := srlf[i - 1];
        i := i - 1;
      }
      srlf[0] := wrDat;
    }

    /** One rising edge after reset.  A word popped by an edge is shown by that edge. */
    method ClockEdge(wrEn: bool, wrDat: T, rdEn: bool)
      requires Valid()
      modifies this, srlf
      ensures Valid() && queue == Edge(old(queue), Input(wrEn, wrDat, rdEn))
      ensures queue.popped != [] ==> rdDat == queue.popped[0]
    {
      hide Edge, Puts, Gets, NewestFirst, FlagsOf;
      ghost var s, i := queue, Input(wrEn, wrDat, rdEn);
      MemorisedFlagsFollow(s, i);
      var f := Outputs();
      var wrEnS, rdEnS := wrEn && !wrFulli, rdEn && !rdEmpti;
      rdDat := srlf[rdPtr];
      wrCnt := (if wrFulli then depth else 0) + PlusOne(rdPtr, depth);
      ShiftedRight(srlf[..], s, i);
      assert s.words != [] ==> rdDat == s.words[0] by { OldestWord(srlf[..], s.words); }
      if wrEnS {
        Shift(wrDat);
      }
      if wrEnS && !rdEnS {
        rdPtr := PlusOne(rdPtr, depth);
      } else if rdEnS && !wrEnS {
        rdPtr := Minus(rdPtr, 1, depth);
      }
      if rdEn {
        wrFulli := false;
      } else if (f.almostFull && wrEn) || wrFulli {
        wrFulli := true;
      }
      if wrEn {
        rdEmpti := false;
      } else if (f.almostEmpty && rdEn) || rdEmpti {
        rdEmpti := true;
      }
      queue := Edge(s, i);
    }
  }

  ghost predicate NewestFirst<T>(srl: seq<T>, words: seq<T>) {
    |words| <= |srl| && forall i :: 0 <= i < |words| ==> srl[i] == words[|words| - 1 - i]
  }

  lemma OldestWord<T>(srl: seq<T>, words: seq<T>)
    requires NewestFirst(srl, words)
    ensures words != [] ==> srl[|words| - 1] == words[0]
  {
  }

  lemma ShiftedRight<T>(srl: seq<T>, s: State<T>, i: Input<T>)
    requires NewestFirst(srl, s.words) && |srl| == s.depth >= 2
    ensures NewestFirst(if Puts(s, i) then [i.wrDat] + srl[..|srl| - 1] else srl, Edge(s, i).words)
  {
  }

  /** Flags and popped words of the reference queue along a run. */
  function FlagTrace<T>(s: State<T>, ins: seq<Input<T>>): seq<Flags>
    decreases |ins|
  {
    if ins == [] then [] else [FlagsOf(Edge(s, ins[0]))] + FlagTrace(Edge(s, ins[0]), ins[1..])
  }

  function PopTrace<T>(s: State<T>, ins: seq<Input<T>>): (t: seq<seq<T>>)
    ensures |t| == |ins|
    decreases |ins|
  {
    if ins == [] then [] else [Edge(s, ins[0]).popped] + PopTrace(Edge(s, ins[0]), ins[1..])
  }

  lemma {:induction false} TracesAppend<T>(s: State<T>, ins: seq<Input<T>>, i: Input<T>)
    ensures Run(s, ins + [i]) == Edge(Run(s, ins), i)
    ensures FlagTrace(s, ins + [i]) == FlagTrace(s, ins) + [FlagsOf(Run(s, ins + [i]))]
    ensures PopTrace(s, ins + [i]) == PopTrace(s, ins) + [Run(s, ins + [i]).popped]
    decreases |ins|
  {
    if ins != [] {
      TracesAppend(Edge(s, ins[0]), ins[1..], i);
      assert (ins + [i])[1..] == ins[1..] + [i];
    }
  }

  lemma NoTrace<T>(s: State<T>)
    ensures Run(s, []) == s && FlagTrace(s, []) == [] && PopTrace(s, []) == []
    ensures Shows([], PopTrace(s, []), 0) && Shows([], PopTrace(s, []), 1)
  {
  }

  lemma ShowsNext<T>(data: seq<T>, pops: seq<seq<T>>, x: T, p: seq<T>, delay: nat)
    requires Shows(data, pops, delay) && |data| == |pops| && delay <= 1
    requires delay == 0 ==> (p != [] ==> x == p[0])
    requires delay == 1 ==> (pops != [] && pops[|pops| - 1] != [] ==> x == pops[|pops| - 1][0])
    ensures Shows(data + [x], pops + [p], delay)
  {
  }

  /** Fed the same inputs, the two FIFOs raise the same flags and the same count after every
      edge, and the ring shows each popped word exactly one clock after the shift register. */
  method Lockstep<T(0)>(depth: nat, inputs: seq<Input<T>>)
    returns (ringFlags: seq<Flags>, shiftFlags: seq<Flags>, ringData: seq<T>, shiftData: seq<T>)
    requires depth >= 2
    ensures ringFlags == shiftFlags == FlagTrace(State(depth, [], 0, []), inputs)
    ensures |ringData| == |shiftData| == |inputs|
    ensures
      var pops := PopTrace(State(depth, [], 0, []), inputs);
      Shows(shiftData, pops, 0) && Shows(ringData, pops, 1)
  {
    hide Edge, FlagsOf, RingMatches, RingHolds, NewestFirst, InSlot, Shows, FlagTrace, PopTrace, Run;
    var ring := new RingFifo<T>(depth);
    var shift := new ShiftFifo<T>(depth);
    ghost var start := State(depth, [], 0, []);
    ringFlags, shiftFlags, ringData, shiftData := [], [], [], [];
    NoTrace(start);
    for k := 0 to |inputs|
      invariant ring.Valid() && shift.Valid() && fresh(ring) && fresh(ring.dpram) && fresh(shift) && fresh(shift.srlf)
      invariant {shift as object, shift.srlf} !! {ring as object, ring.dpram}
      invariant ring.queue == shift.queue == Run(start, inputs[..k])
      invariant ringFlags == shiftFlags == FlagTrace(start, inputs[..k])
      invariant |ringData| == |shiftData| == k
      invariant k > 0 ==> PopTrace(start, inputs[..k])[k - 1] == ring.queue.popped
      invariant Shows(shiftData, PopTrace(start, inputs[..k]), 0) && Shows(ringData, PopTrace(start, inputs[..k]), 1)
    {
      var i := inputs[k];
      TracesAppend(start, inputs[..k], i);
      assert inputs[..k + 1] == inputs[..k] + [i];
      ring.ClockEdge(i.wrEn, i.wrDat, i.rdEn);
      shift.ClockEdge(i.wrEn, i.wrDat, i.rdEn);
      ringFlags, shiftFlags := ringFlags + [ring.Outputs()], shiftFlags + [shift.Outputs()];
      ghost var pops := PopTrace(start, inputs[..k]);
      ShowsNext(shiftData, pops, shift.rdDat, shift.queue.popped, 0);
      ShowsNext(ringData, pops, ring.rdDat, ring.queue.popped, 1);
      ringData, shiftData := ringData + [ring.rdDat], shiftData + [shift.rdDat];
    }
    assert inputs[..|inputs|] == inputs;
  }

  /** The data register shows each popped word `delay` edges after the pop. */
  ghost predicate Shows<T>(data: seq<T>, pops: seq<seq<T>>, delay: nat) {
    forall k :: 0 <= k < |pops| && k + delay < |data| && pops[k] != [] ==> data[k + delay] == pops[k][0]
  }
}
