/** Counters kept modulo a ring size. */
module Modular {

  /** The remainder, by repeated subtraction. */
  function Wrap(v: nat, p: nat): (r: nat)
    requires p >= 1
    ensures r < p
  {
    if v < p then v else Wrap(v - p, p)
  }

  /** The quotient: how many turns were subtracted. */
  function Turns(v: nat, p: nat): nat
    requires p >= 1
  {
    if v < p then 0 else 1 + Turns(v - p, p)
  }

  lemma {:induction false} WrapIsRemainder(v: nat, p: nat)
    requires p >= 1
    ensures Wrap(v, p) == v % p && Turns(v, p) == v / p
  {
    if v < p {
      Unique(v, 0, v, p);
    } else {
      WrapIsRemainder(v - p, p);
      assert v - p == ((v - p) / p) * p + (v - p) % p;
      Unique(v, (v - p) / p + 1, (v - p) % p, p);
    }
  }

  lemma MulAtLeast(d: int, p: nat)
    requires d >= 1
    ensures d * p >= p
  {
  }

  /** Quotient and remainder are determined by `v == q * p + r`. */
  lemma Unique(v: int, q: int, r: int, p: nat)
    requires 0 <= r < p && v == q * p + r
    ensures v / p == q && v % p == r
  {
    var q', r' := v / p, v % p;
    assert v == p * q' + r';
    var d := q - q';
    assert d * p == r' - r;
    if d >= 1 {
      MulAtLeast(d, p);
      assert false;
    } else if d <= -1 {
      MulAtLeast(-d, p);
      assert false;
    }
  }

  /** Advancing by at most one turn. */
  lemma {:induction false} WrapAdvance(v: nat, d: nat, p: nat)
    requires p >= 1 && d <= p
    ensures Wrap(v + d, p) == if Wrap(v, p) + d < p then Wrap(v, p) + d else Wrap(v, p) + d - p
    decreases v
  {
    if v >= p {
      WrapAdvance(v - p, d, p);
    }
  }

  lemma {:induction false} WrapOfWrap(v: nat, d: nat, p: nat)
    requires p >= 1
    ensures Wrap(Wrap(v, p) + d, p) == Wrap(v + d, p)
    decreases v
  {
    if v >= p {
      WrapOfWrap(v - p, d, p);
    }
  }

  /** Two counts less than one turn apart share a slot only when they are equal. */
  lemma WrapDistinct(a: nat, b: nat, p: nat)
    requires p >= 1 && a < b < a + p
    ensures Wrap(a, p) != Wrap(b, p)
  {
    WrapAdvance(a, b - a, p);
  }

  /** Dropping the top bit of a count kept modulo two turns. */
  lemma {:induction false} WrapHalf(v: nat, p: nat)
    requires p >= 1
    ensures Wrap(v, 2 * p) == Wrap(v, p) || Wrap(v, 2 * p) == Wrap(v, p) + p
    decreases v
  {
    if v >= 2 * p {
      WrapHalf(v - 2 * p, p);
      assert Wrap(v, p) == Wrap(v - p, p) == Wrap(v - 2 * p, p);
    }
  }

  /** A remainder may be taken before a sum or after it. */
  lemma RemainderOfSum(v: nat, d: nat, p: nat)
    requires p >= 1
    ensures (v % p + d) % p == (v + d) % p
  {
    hide Wrap, Turns;
    WrapIsRemainder(v, p);
    WrapOfWrap(v, d, p);
    WrapIsRemainder(Wrap(v, p) + d, p);
    WrapIsRemainder(v + d, p);
  }

  /** `k` times `unit`, by repeated addition. */
  function Times(k: nat, unit: nat): nat {
    if k == 0 then 0 else unit + Times(k - 1, unit)
  }

  lemma {:induction false} TimesIsProduct(k: nat, unit: nat)
    ensures Times(k, unit) == k * unit
  {
    if k >= 1 {
      TimesIsProduct(k - 1, unit);
    }
  }

  /** A pointer counts modulo two turns of its memory. */
  function PlusOne(v: nat, m: nat): (r: nat)
    requires v < m
    ensures r < m
  {
    if v + 1 == m then 0 else v + 1
  }

  /** A pointer without its top bit: the place it points to. */
  function Address(v: nat, depth: nat): (a: nat)
    requires v < 2 * depth
    ensures a < depth
  {
    if v < depth then v else v - depth
  }
}
