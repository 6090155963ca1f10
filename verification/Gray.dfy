/** Reflected Gray code over bit vectors of any width.

    A vector is a sequence whose element i is bit i, so the last element is the
    most significant bit.  `BinToGray` and `GrayToBin` are the combinational parts
    of the entities bin2gray and gray2bin; the registers behind them belong to the
    FIFO that instantiates them. */
module Gray {
  import opened Modular

  type Bits = seq<bool>

  function Pow2(n: nat): (p: nat)
    ensures p >= 1
  {
    if n == 0 then 1 else 2 * Pow2(n - 1)
  }

  function FromBits(b: Bits): (v: nat)
    ensures v < Pow2(|b|)
  {
    if b == [] then 0 else (if b[0] then 1 else 0) + 2 * FromBits(b[1..])
  }

  function ToBits(n: nat, v: nat): (b: Bits)
    requires v < Pow2(n)
    ensures |b| == n && FromBits(b) == v
  {
    if n == 0 then [] else [v % 2 == 1] + ToBits(n - 1, v / 2)
  }

  lemma {:induction false} FromBitsInjective(a: Bits, b: Bits)
    requires |a| == |b| && FromBits(a) == FromBits(b)
    ensures a == b
  {
    if a != [] {
      FromBitsInjective(a[1..], b[1..]);
      assert a == [a[0]] + a[1..] && b == [b[0]] + b[1..];
    }
  }

  /** Every bit is the exclusive or of the binary bit and the one above it; the
      most significant bit is copied. */
  function BinToGray(b: Bits): (g: Bits)
    ensures |g| == |b|
  {
    seq(|b|, i requires 0 <= i < |b| => if i == |b| - 1 then b[i] else b[i] != b[i + 1])
  }

  /** The chain of exclusive ors, from the most significant bit down. */
  function GrayToBin(g: Bits): (b: Bits)
    ensures |b| == |g|
  {
    if |g| <= 1 then g
    else
      var above := GrayToBin(g[1..]);
      [above[0] != g[0]] + above
  }

  lemma BinToGrayTail(b: Bits)
    requires |b| >= 2
    ensures BinToGray(b) == [b[0] != b[1]] + BinToGray(b[1..])
  {
  }

  lemma {:induction false} GrayToBinInverse(b: Bits)
    ensures GrayToBin(BinToGray(b)) == b
  {
    if |b| >= 2 {
      BinToGrayTail(b);
      GrayToBinInverse(b[1..]);
      assert BinToGray(b)[1..] == BinToGray(b[1..]);
      assert b == [b[0]] + b[1..];
    }
  }

  lemma {:induction false} BinToGrayInverse(g: Bits)
    ensures BinToGray(GrayToBin(g)) == g
  {
    if |g| >= 2 {
      var b := GrayToBin(g);
      BinToGrayInverse(g[1..]);
      BinToGrayTail(b);
      assert b[1..] == GrayToBin(g[1..]);
      assert g == [g[0]] + g[1..];
    }
  }

  /** Binary increment with wrap-around. */
  function Increment(b: Bits): (c: Bits)
    ensures |c| == |b|
  {
    if b == [] then []
    else if !b[0] then [true] + b[1..]
    else [false] + Increment(b[1..])
  }

  lemma {:induction false} IncrementWraps(b: Bits)
    ensures FromBits(Increment(b)) == Wrap(FromBits(b) + 1, Pow2(|b|))
  {
    if b != [] {
      var c := Increment(b);
      if !b[0] {
        assert c[1..] == b[1..];
      } else {
        IncrementWraps(b[1..]);
        assert c[1..] == Increment(b[1..]);
      }
    }
  }

  lemma IncrementCounts(b: Bits)
    ensures FromBits(Increment(b)) == (FromBits(b) + 1) % Pow2(|b|)
  {
    hide FromBits, Increment, Pow2, Wrap;
    IncrementWraps(b);
    WrapIsRemainder(FromBits(b) + 1, Pow2(|b|));
  }

  function Flip(a: Bits, k: nat): (b: Bits)
    requires k < |a|
    ensures |b| == |a|
  {
    a[k := !a[k]]
  }

  /** The bit that changes when the binary value behind a Gray code is incremented. */
  function TogglePosition(b: Bits): (k: nat)
    requires b != []
    ensures k < |b|
  {
    if !b[0] || |b| == 1 then 0 else 1 + TogglePosition(b[1..])
  }

  /** Successive codes, the wrap-around included, differ in exactly one bit. */
  lemma {:induction false} SuccessorsDifferInOneBit(b: Bits)
    requires b != []
    ensures BinToGray(Increment(b)) == Flip(BinToGray(b), TogglePosition(b))
  {
    var c := Increment(b);
    if |b| > 1 {
      BinToGrayTail(b);
      BinToGrayTail(c);
      if b[0] {
        SuccessorsDifferInOneBit(b[1..]);
        assert c[1..] == Increment(b[1..]);
        assert c[1] == !b[1];
      } else {
        assert c[1..] == b[1..];
      }
    }
  }

  /** What a register may capture while the vector it samples goes from `a` to `b`:
      each bit resolves on its own to the old or to the new value. */
  predicate MixOf(m: Bits, a: Bits, b: Bits) {
    |m| == |a| == |b| && forall i :: 0 <= i < |m| ==> m[i] == a[i] || m[i] == b[i]
  }

  lemma MixOfOneBit(m: Bits, a: Bits, k: nat)
    requires k < |a| && MixOf(m, a, Flip(a, k))
    ensures m == a || m == Flip(a, k)
  {
    if m[k] == a[k] {
      assert m == a;
    } else {
      assert m == Flip(a, k);
    }
  }

  /** The Gray code, on `n` bits, of an unbounded count. */
  function Code(n: nat, v: nat): (g: Bits)
    ensures |g| == n
  {
    BinToGray(ToBits(n, Wrap(v, Pow2(n))))
  }

  function Decode(g: Bits): (v: nat)
    ensures v < Pow2(|g|)
  {
    FromBits(GrayToBin(g))
  }

  lemma DecodeWraps(n: nat, v: nat)
    ensures Decode(Code(n, v)) == Wrap(v, Pow2(n))
  {
    GrayToBinInverse(ToBits(n, Wrap(v, Pow2(n))));
  }

  lemma DecodeCode(n: nat, v: nat)
    ensures Decode(Code(n, v)) == v % Pow2(n)
  {
    hide Decode, Code, Pow2, Wrap;
    DecodeWraps(n, v);
    WrapIsRemainder(v, Pow2(n));
  }

  lemma CodeSuccessor(n: nat, v: nat)
    requires n >= 1
    ensures exists k :: 0 <= k < n && Code(n, v + 1) == Flip(Code(n, v), k)
  {
    var p := Pow2(n);
    var b := ToBits(n, Wrap(v, p));
    IncrementWraps(b);
    WrapOfWrap(v, 1, p);
    FromBitsInjective(Increment(b), ToBits(n, Wrap(v + 1, p)));
    SuccessorsDifferInOneBit(b);
    var k := TogglePosition(b);
    assert Code(n, v + 1) == Flip(Code(n, v), k);
  }

  /** A Gray pointer captured while it advances by at most one count is always the
      code before or the code after the change, whatever each bit does. */
  lemma CaptureIsOldOrNew(n: nat, v: nat, next: nat, m: Bits)
    requires n >= 1 && v <= next <= v + 1
    requires MixOf(m, Code(n, v), Code(n, next))
    ensures m == Code(n, v) || m == Code(n, next)
  {
    if next == v {
      assert m == Code(n, v);
    } else {
      CodeSuccessor(n, v);
      var k :| 0 <= k < n && Code(n, v + 1) == Flip(Code(n, v), k);
      MixOfOneBit(m, Code(n, v), k);
    }
  }
}
