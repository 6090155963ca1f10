/** The Gray counter built from local toggle cells and one parity register. */
module GrayCounter {
  import opened Gray
  import opened Modular

  /** The chain of zero flags: z(1) is the inverse of q(0), and z(i) adds q(i-1). */
  predicate ZeroFlag(q: Bits, i: nat)
    requires 1 <= i < |q|
  {
    if i == 1 then !q[0] else ZeroFlag(q, i - 1) && !q[i - 1]
  }

  /** The toggle input of cell `i`.  The first cell sees the inverted parity, the
      second and the last have one of their inputs tied high. */
  predicate CellToggles(q: Bits, par: bool, i: nat)
    requires |q| > 3 && i < |q|
  {
    if i == 0 then !par
    else if i == 1 then q[0] && par
    else if i < |q| - 1 then q[i - 1] && ZeroFlag(q, i - 1) && par
    else ZeroFlag(q, |q| - 2) && par
  }

  datatype State = State(q: Bits, par: bool)

  function Parity(q: Bits): bool {
    if q == [] then false else q[0] != Parity(q[1..])
  }

  /** One rising edge. */
  function Edge(s: State, srst: bool, en: bool, qrst: Bits): (t: State)
    requires |s.q| == |qrst| > 3
    ensures |t.q| == |s.q|
  {
    if srst then State(qrst, Parity(qrst))
    else if en then
      State(seq(|s.q|, i requires 0 <= i < |s.q| => s.q[i] != CellToggles(s.q, s.par, i)), !s.par)
    else s
  }

  /** The parity register holds the parity of the cells. */
  predicate Consistent(s: State) {
    |s.q| > 3 && s.par == Parity(s.q)
  }

  lemma {:induction false} ZeroFlagMeaning(q: Bits, i: nat)
    requires 1 <= i < |q|
    ensures ZeroFlag(q, i) <==> LowZero(q, i)
  {
    if i > 1 {
      ZeroFlagMeaning(q, i - 1);
    }
  }

  predicate LowZero(q: Bits, k: int)
    requires k <= |q|
  {
    forall j :: 0 <= j < k ==> !q[j]
  }

  lemma {:induction false} ParityIsLowestBinaryBit(q: Bits)
    requires q != []
    ensures GrayToBin(q)[0] == Parity(q)
  {
    if |q| > 1 {
      ParityIsLowestBinaryBit(q[1..]);
    }
  }

  /** The bit that turns a Gray code of odd parity into its successor: the one above
      the lowest set bit, or the top bit when nothing is set below the top two. */
  predicate OddToggle(q: Bits, i: nat)
    requires i < |q|
  {
    if i == |q| - 1 then LowZero(q, i - 1)
    else i >= 1 && q[i - 1] && LowZero(q, i - 1)
  }

  lemma {:induction false} OddTogglePosition(q: Bits, i: nat)
    requires i < |q| && Parity(q)
    ensures OddToggle(q, i) <==> i == TogglePosition(GrayToBin(q))
  {
    if |q| > 1 {
      var hi := q[1..];
      ParityIsLowestBinaryBit(q);
      ParityIsLowestBinaryBit(hi);
      assert GrayToBin(q)[1..] == GrayToBin(hi);
      if !q[0] {
        if i >= 1 {
          OddTogglePosition(hi, i - 1);
          assert OddToggle(q, i) <==> OddToggle(hi, i - 1) by {
            assert forall j :: 1 <= j < |q| ==> q[j] == hi[j - 1];
            assert LowZero(q, i - 1) <==> LowZero(hi, i - 2);
          }
        }
      } else {
        assert i >= 2 ==> !LowZero(q, i - 1);
      }
    }
  }

  /** Exactly one cell toggles on an enabled edge, and it is the one that leads to the
      code of the next binary count. */
  lemma OneCellToggles(q: Bits)
    requires |q| > 3
    ensures forall i :: 0 <= i < |q| ==> (CellToggles(q, Parity(q), i) <==> i == TogglePosition(GrayToBin(q)))
  {
    ParityIsLowestBinaryBit(q);
    forall i | 0 <= i < |q|
      ensures CellToggles(q, Parity(q), i) <==> i == TogglePosition(GrayToBin(q))
    {
      if Parity(q) {
        OddTogglePosition(q, i);
        if 2 <= i {
          ZeroFlagMeaning(q, i - 1);
        }
      }
    }
  }

  lemma {:induction false} FlipParity(q: Bits, k: nat)
    requires k < |q|
    ensures Parity(Flip(q, k)) == !Parity(q)
  {
    if k == 0 {
      assert Flip(q, k)[1..] == q[1..];
    } else {
      FlipParity(q[1..], k - 1);
      assert Flip(q, k)[1..] == Flip(q[1..], k - 1);
    }
  }

  /** One enabled edge toggles one bit, keeps the parity register right, and yields the
      Gray code of the binary count plus one, modulo the width. */
  lemma EnabledEdgeCounts(s: State, qrst: Bits)
    requires Consistent(s) && |qrst| == |s.q|
    ensures
      var t := Edge(s, false, true, qrst);
      && Consistent(t)
      && t.q == BinToGray(Increment(GrayToBin(s.q)))
      && t.q == Flip(s.q, TogglePosition(GrayToBin(s.q)))
      && Decode(t.q) == (Decode(s.q) + 1) % Pow2(|s.q|)
  {
    var b := GrayToBin(s.q);
    var t := Edge(s, false, true, qrst);
    OneCellToggles(s.q);
    assert t.q == Flip(s.q, TogglePosition(b));
    FlipParity(s.q, TogglePosition(b));
    SuccessorsDifferInOneBit(b);
    BinToGrayInverse(s.q);
    GrayToBinInverse(Increment(b));
    IncrementCounts(b);
  }

  /** The counter after a sequence of enable values, without reset. */
  function Run(s: State, enables: seq<bool>): (t: State)
    requires |s.q| > 3
    ensures |t.q| == |s.q|
    decreases |enables|
  {
    if enables == [] then s
    else Run(Edge(s, false, enables[0], s.q), enables[1..])
  }

  function Enabled(enables: seq<bool>): nat {
    if enables == [] then 0 else (if enables[0] then 1 else 0) + Enabled(enables[1..])
  }

  lemma EdgeWithout(s: State, qrst: Bits)
    requires |s.q| > 3 && |qrst| == |s.q|
    ensures Edge(s, false, false, qrst) == s
  {
  }

  /** The counter follows a binary counter over every run, wrap-arounds included. */
  lemma {:induction false} TracksBinaryCounter(s: State, enables: seq<bool>)
    requires Consistent(s)
    ensures Consistent(Run(s, enables))
    ensures Decode(Run(s, enables).q) == (Decode(s.q) + Enabled(enables)) % Pow2(|s.q|)
    decreases |enables|
  {
    hide Edge, Parity, Decode, Pow2;
    if enables == [] {
      WrapIsRemainder(Decode(s.q), Pow2(|s.q|));
    } else {
      var t := Edge(s, false, enables[0], s.q);
      EdgeWithout(s, s.q);
      if enables[0] {
        EnabledEdgeCounts(s, s.q);
        RemainderOfSum(Decode(s.q) + 1, Enabled(enables[1..]), Pow2(|s.q|));
      }
      TracksBinaryCounter(t, enables[1..]);
    }
  }

  /** The entity gray_counter: toggle flip-flops and the parity register. */
  class Counter {
    const width: nat
    var q: Bits
    var par: bool

    ghost predicate Valid()
      reads this
    {
      |q| == width && Consistent(Regs())
    }

    ghost function Regs(): State
      reads this
    {
      State(q, par)
    }

    /** The state a synchronous reset leaves. */
    constructor (qrst: Bits)
      requires |qrst| > 3
      ensures Valid() && q == qrst
    {
      width := |qrst|;
      q := qrst;
      var p := ResetParity(qrst);
      par := p;
    }

    method ClockEdge(srst: bool, en: bool, qrst: Bits)
      requires Valid() && |qrst| == width
      modifies this
      ensures Valid()
      ensures Regs() == Edge(old(Regs()), srst, en, qrst)
      ensures !srst && en ==> Decode(q) == (Decode(old(q)) + 1) % Pow2(width)
    {
      ghost var before := Regs();
      if srst {
        q := qrst;
        par := ResetParity(qrst);
      } else if en {
        EnabledEdgeCounts(before, qrst);
        var next := ToggleCells(q, par);
        q := next;
        par := !par;
      }
    }
  }

  /** The row of cells on an enabled edge; `z` carries the zero flag from each cell to
      the next. */
  method ToggleCells(q: Bits, par: bool) returns (next: Bits)
    requires |q| > 3
    ensures next == Edge(State(q, par), false, true, q).q
  {
    var z := true;
    next := [q[0] != !par];
    for i := 1 to |q|
      invariant |next| == i
      invariant i >= 2 ==> z == ZeroFlag(q, if i == |q| then |q| - 2 else i - 1)
      invariant i == 1 ==> z
      invariant forall j :: 0 <= j < i ==> next[j] == (q[j] != CellToggles(q, par, j))
    {
      var data := if i == |q| - 1 then z && par else q[i - 1] && z && par;
      next := next + [q[i] != data];
      if i < |q| - 1 {
        z := z && !q[i - 1];
      }
    }
  }

  /** The loop that computes the parity of the value loaded by a reset. */
  method ResetParity(qrst: Bits) returns (p: bool)
    ensures p == Parity(qrst)
  {
    p := false;
    for i := 0 to |qrst|
      invariant p == (Parity(qrst) != Parity(qrst[i..]))
    {
      assert qrst[i..][1..] == qrst[i + 1..];
      p := p != qrst[i];
    }
  }
}
