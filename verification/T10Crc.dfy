/** The T10 guard checksum: a table-driven loop, and the bit-serial division it stands for. */
module T10Crc {

  const POLYNOMIAL: bv16 := 0x8BB7

  /** One of the eight entries in a row of the table. */
  function Pick(i: bv8, a: bv16, b: bv16, c: bv16, d: bv16, e: bv16, f: bv16, g: bv16, h: bv16): bv16 {
    if i & 4 == 0 then
      if i & 2 == 0 then (if i & 1 == 0 then a else b) else (if i & 1 == 0 then c else d)
    else
      if i & 2 == 0 then (if i & 1 == 0 then e else f) else (if i & 1 == 0 then g else h)
  }

  /** The constant table t10_dif_crc_table, thirty-two rows of eight. */
  function TableEntry(i: bv8): bv16 {
    if i >> 3 == 0 then Pick(i, 0x0000, 0x8BB7, 0x9CD9, 0x176E, 0xB205, 0x39B2, 0x2EDC, 0xA56B)
    else if i >> 3 == 1 then Pick(i, 0xEFBD, 0x640A, 0x7364, 0xF8D3, 0x5DB8, 0xD60F, 0xC161, 0x4AD6)
    else if i >> 3 == 2 then Pick(i, 0x54CD, 0xDF7A, 0xC814, 0x43A3, 0xE6C8, 0x6D7F, 0x7A11, 0xF1A6)
    else if i >> 3 == 3 then Pick(i, 0xBB70, 0x30C7, 0x27A9, 0xAC1E, 0x0975, 0x82C2, 0x95AC, 0x1E1B)
    else if i >> 3 == 4 then Pick(i, 0xA99A, 0x222D, 0x3543, 0xBEF4, 0x1B9F, 0x9028, 0x8746, 0x0CF1)
    else if i >> 3 == 5 then Pick(i, 0x4627, 0xCD90, 0xDAFE, 0x5149, 0xF422, 0x7F95, 0x68FB, 0xE34C)
    else if i >> 3 == 6 then Pick(i, 0xFD57, 0x76E0, 0x618E, 0xEA39, 0x4F52, 0xC4E5, 0xD38B, 0x583C)
    else if i >> 3 == 7 then Pick(i, 0x12EA, 0x995D, 0x8E33, 0x0584, 0xA0EF, 0x2B58, 0x3C36, 0xB781)
    else if i >> 3 == 8 then Pick(i, 0xD883, 0x5334, 0x445A, 0xCFED, 0x6A86, 0xE131, 0xF65F, 0x7DE8)
    else if i >> 3 == 9 then Pick(i, 0x373E, 0xBC89, 0xABE7, 0x2050, 0x853B, 0x0E8C, 0x19E2, 0x9255)
    else if i >> 3 == 10 then Pick(i, 0x8C4E, 0x07F9, 0x1097, 0x9B20, 0x3E4B, 0xB5FC, 0xA292, 0x2925)
    else if i >> 3 == 11 then Pick(i, 0x63F3, 0xE844, 0xFF2A, 0x749D, 0xD1F6, 0x5A41, 0x4D2F, 0xC698)
    else if i >> 3 == 12 then Pick(i, 0x7119, 0xFAAE, 0xEDC0, 0x6677, 0xC31C, 0x48AB, 0x5FC5, 0xD472)
    else if i >> 3 == 13 then Pick(i, 0x9EA4, 0x1513, 0x027D, 0x89CA, 0x2CA1, 0xA716, 0xB078, 0x3BCF)
    else if i >> 3 == 14 then Pick(i, 0x25D4, 0xAE63, 0xB90D, 0x32BA, 0x97D1, 0x1C66, 0x0B08, 0x80BF)
    else if i >> 3 == 15 then Pick(i, 0xCA69, 0x41DE, 0x56B0, 0xDD07, 0x786C, 0xF3DB, 0xE4B5, 0x6F02)
    else if i >> 3 == 16 then Pick(i, 0x3AB1, 0xB106, 0xA668, 0x2DDF, 0x88B4, 0x0303, 0x146D, 0x9FDA)
    else if i >> 3 == 17 then Pick(i, 0xD50C, 0x5EBB, 0x49D5, 0xC262, 0x6709, 0xECBE, 0xFBD0, 0x7067)
    else if i >> 3 == 18 then Pick(i, 0x6E7C, 0xE5CB, 0xF2A5, 0x7912, 0xDC79, 0x57CE, 0x40A0, 0xCB17)
    else if i >> 3 == 19 then Pick(i, 0x81C1, 0x0A76, 0x1D18, 0x96AF, 0x33C4, 0xB873, 0xAF1D, 0x24AA)
    else if i >> 3 == 20 then Pick(i, 0x932B, 0x189C, 0x0FF2, 0x8445, 0x212E, 0xAA99, 0xBDF7, 0x3640)
    else if i >> 3 == 21 then Pick(i, 0x7C96, 0xF721, 0xE04F, 0x6BF8, 0xCE93, 0x4524, 0x524A, 0xD9FD)
    else if i >> 3 == 22 then Pick(i, 0xC7E6, 0x4C51, 0x5B3F, 0xD088, 0x75E3, 0xFE54, 0xE93A, 0x628D)
    else if i >> 3 == 23 then Pick(i, 0x285B, 0xA3EC, 0xB482, 0x3F35, 0x9A5E, 0x11E9, 0x0687, 0x8D30)
    else if i >> 3 == 24 then Pick(i, 0xE232, 0x6985, 0x7EEB, 0xF55C, 0x5037, 0xDB80, 0xCCEE, 0x4759)
    else if i >> 3 == 25 then Pick(i, 0x0D8F, 0x8638, 0x9156, 0x1AE1, 0xBF8A, 0x343D, 0x2353, 0xA8E4)
    else if i >> 3 == 26 then Pick(i, 0xB6FF, 0x3D48, 0x2A26, 0xA191, 0x04FA, 0x8F4D, 0x9823, 0x1394)
    else if i >> 3 == 27 then Pick(i, 0x5942, 0xD2F5, 0xC59B, 0x4E2C, 0xEB47, 0x60F0, 0x779E, 0xFC29)
    else if i >> 3 == 28 then Pick(i, 0x4BA8, 0xC01F, 0xD771, 0x5CC6, 0xF9AD, 0x721A, 0x6574, 0xEEC3)
    else if i >> 3 == 29 then Pick(i, 0xA415, 0x2FA2, 0x38CC, 0xB37B, 0x1610, 0x9DA7, 0x8AC9, 0x017E)
    else if i >> 3 == 30 then Pick(i, 0x1F65, 0x94D2, 0x83BC, 0x080B, 0xAD60, 0x26D7, 0x31B9, 0xBA0E)
    else Pick(i, 0xF0D8, 0x7B6F, 0x6C01, 0xE7B6, 0x42DD, 0xC96A, 0xDE04, 0x55B3)
  }

  /** One step of the division: the top bit of the register, together with the incoming
      message bit, decides whether the polynomial is subtracted. */
  function BitStep(crc: bv16, bit: bool): bv16 {
    if (crc & 0x8000 != 0) != bit then (crc << 1) ^ POLYNOMIAL else crc << 1
  }

  predicate Bit(b: bv8, mask: bv8) { b & mask != 0 }

  /** The bits of a byte, most significant first. */
  function BitsOf(b: bv8): (bits: seq<bool>)
    ensures |bits| == 8
  {
    [Bit(b, 0x80), Bit(b, 0x40), Bit(b, 0x20), Bit(b, 0x10), Bit(b, 0x08), Bit(b, 0x04), Bit(b, 0x02), Bit(b, 0x01)]
  }

  function Message(buffer: seq<bv8>): seq<bool> {
    if buffer == [] then [] else BitsOf(buffer[0]) + Message(buffer[1..])
  }

  /** The reference: divide the message bit by bit. */
  function Serial(crc: bv16, bits: seq<bool>): bv16
    decreases |bits|
  {
    if bits == [] then crc else Serial(BitStep(crc, bits[0]), bits[1..])
  }

  lemma {:induction false} SerialAppend(crc: bv16, a: seq<bool>, b: seq<bool>)
    ensures Serial(crc, a + b) == Serial(Serial(crc, a), b)
    decreases |a|
  {
    if a == [] {
      assert a + b == b;
    } else {
      assert (a + b)[1..] == a[1..] + b;
      SerialAppend(BitStep(crc, a[0]), a[1..], b);
    }
  }

  function Xor(a: bv16, b: bv16): bv16 { a ^ b }

  predicate Top(a: bv16) { a & 0x8000 != 0 }

  function Up(a: bv16): bv16 { a << 1 }

  lemma StepParts(crc: bv16, bit: bool)
    ensures BitStep(crc, bit) == if Top(crc) != bit then Xor(Up(crc), POLYNOMIAL) else Up(crc)
  {
  }

  lemma XorAssociates(a: bv16, b: bv16, c: bv16)
    ensures Xor(Xor(a, b), c) == Xor(a, Xor(b, c))
  {
  }

  lemma XorCommutes(a: bv16, b: bv16)
    ensures Xor(a, b) == Xor(b, a)
  {
  }

  lemma XorCancels(a: bv16)
    ensures Xor(a, a) == 0 && Xor(a, 0) == a && Xor(0, a) == a
  {
  }

  lemma XorLaws(a: bv16, b: bv16, p: bv16)
    ensures Xor(Xor(a, p), Xor(b, p)) == Xor(a, b)
    ensures Xor(Xor(a, p), b) == Xor(Xor(a, b), p)
    ensures Xor(a, Xor(b, p)) == Xor(Xor(a, b), p)
  {
    hide Xor;
    XorAssociates(a, b, p);
    XorAssociates(a, p, b);
    XorAssociates(Xor(a, p), b, p);
    XorAssociates(Xor(a, b), p, p);
    XorCommutes(p, b);
    XorCancels(p);
    XorCancels(Xor(a, b));
  }

  lemma UpLinear(a: bv16, b: bv16)
    ensures Up(Xor(a, b)) == Xor(Up(a), Up(b))
  {
  }

  lemma TopLinear(a: bv16, b: bv16)
    ensures Top(Xor(a, b)) == (Top(a) != Top(b))
  {
  }

  /** A step is linear in the register and in the message bit. */
  lemma StepLinear(a: bv16, b: bv16, x: bool, y: bool)
    ensures BitStep(Xor(a, b), x != y) == Xor(BitStep(a, x), BitStep(b, y))
  {
    hide Xor, Top, Up, BitStep;
    StepParts(a, x);
    StepParts(b, y);
    StepParts(Xor(a, b), x != y);
    UpLinear(a, b);
    TopLinear(a, b);
    XorLaws(Up(a), Up(b), POLYNOMIAL);
  }

  function XorBits(a: seq<bool>, b: seq<bool>): (c: seq<bool>)
    requires |a| == |b|
    ensures |c| == |a|
  {
    seq(|a|, i requires 0 <= i < |a| => a[i] != b[i])
  }

  /** The division is linear: checksums of equally long messages add up like the messages. */
  lemma {:induction false} SerialLinear(c: bv16, d: bv16, a: seq<bool>, b: seq<bool>)
    requires |a| == |b|
    ensures Serial(Xor(c, d), XorBits(a, b)) == Xor(Serial(c, a), Serial(d, b))
    decreases |a|
  {
    hide Xor, BitStep;
    if a != [] {
      StepLinear(c, d, a[0], b[0]);
      SerialLinear(BitStep(c, a[0]), BitStep(d, b[0]), a[1..], b[1..]);
      assert XorBits(a, b)[1..] == XorBits(a[1..], b[1..]);
    }
  }

  /** Eight steps on the register alone. */
  function Shift8(x: bv16): bv16 {
    Shift4(Shift4(x))
  }

  function Shift4(x: bv16): bv16 {
    BitStep(BitStep(BitStep(BitStep(x, false), false), false), false)
  }

  lemma FirstEighth(i: bv8)
    requires i >> 5 == 0
    ensures TableEntry(i) == Shift8((i as bv16) << 8)
  {
  }

  lemma SecondEighth(i: bv8)
    requires i >> 5 == 1
    ensures TableEntry(i) == Shift8((i as bv16) << 8)
  {
  }

  lemma FirstQuarter(i: bv8)
    requires i >> 6 == 0
    ensures TableEntry(i) == Shift8((i as bv16) << 8)
  {
    hide TableEntry, Shift8;
    if i >> 5 == 0 {
      FirstEighth(i);
    } else {
      SecondEighth(i);
    }
  }

  lemma SecondQuarter(i: bv8)
    requires i >> 6 == 1
    ensures TableEntry(i) == Shift8((i as bv16) << 8)
  {
  }

  lemma ThirdQuarter(i: bv8)
    requires i >> 6 == 2
    ensures TableEntry(i) == Shift8((i as bv16) << 8)
  {
  }

  lemma FourthQuarter(i: bv8)
    requires i >> 6 == 3
    ensures TableEntry(i) == Shift8((i as bv16) << 8)
  {
  }

  /** Every entry of the table is the register left by its index after eight steps. */
  lemma TableIsShift(i: bv8)
    ensures TableEntry(i) == Shift8((i as bv16) << 8)
  {
    hide TableEntry, Shift8;
    if i >> 6 == 0 {
      FirstQuarter(i);
    } else if i >> 6 == 1 {
      SecondQuarter(i);
    } else if i >> 6 == 2 {
      ThirdQuarter(i);
    } else {
      FourthQuarter(i);
    }
  }

  lemma LowByteShifts(a: bv16)
    ensures Shift8(a & 0xFF) == a << 8
  {
  }

  lemma Shift4Linear(a: bv16, b: bv16)
    ensures Shift4(Xor(a, b)) == Xor(Shift4(a), Shift4(b))
  {
    hide Xor, BitStep;
    StepLinear(a, b, false, false);
    var a1, b1 := BitStep(a, false), BitStep(b, false);
    StepLinear(a1, b1, false, false);
    var a2, b2 := BitStep(a1, false), BitStep(b1, false);
    StepLinear(a2, b2, false, false);
    StepLinear(BitStep(a2, false), BitStep(b2, false), false, false);
  }

  lemma Shift8Linear(a: bv16, b: bv16)
    ensures Shift8(Xor(a, b)) == Xor(Shift8(a), Shift8(b))
  {
    hide Xor, Shift4;
    Shift4Linear(a, b);
    Shift4Linear(Shift4(a), Shift4(b));
  }

  function FourSteps(crc: bv16, a: bool, b: bool, c: bool, d: bool): bv16 {
    BitStep(BitStep(BitStep(BitStep(crc, a), b), c), d)
  }

  lemma SerialOfFour(crc: bv16, bits: seq<bool>)
    requires |bits| == 4
    ensures Serial(crc, bits) == FourSteps(crc, bits[0], bits[1], bits[2], bits[3])
  {
    hide BitStep;
    assert bits[1..][1..] == bits[2..] && bits[2..][1..] == bits[3..] && bits[3..][1..] == [];
    var c1 := BitStep(crc, bits[0]);
    var c2 := BitStep(c1, bits[1]);
    var c3 := BitStep(c2, bits[2]);
    assert Serial(crc, bits) == Serial(c1, bits[1..]);
    assert Serial(c1, bits[1..]) == Serial(c2, bits[2..]);
    assert Serial(c2, bits[2..]) == Serial(c3, bits[3..]);
    assert Serial(c3, bits[3..]) == Serial(BitStep(c3, bits[3]), []);
  }

  /** The message bits of a byte act as if the byte had been added to the top of the
      register. */
  lemma ByteEnters(b: bv8)
    ensures
      FourSteps(FourSteps(0, Bit(b, 0x80), Bit(b, 0x40), Bit(b, 0x20), Bit(b, 0x10)),
                Bit(b, 0x08), Bit(b, 0x04), Bit(b, 0x02), Bit(b, 0x01)) == Shift8((b as bv16) << 8)
  {
  }

  lemma SerialOfByte(b: bv8)
    ensures Serial(0, BitsOf(b)) == Shift8((b as bv16) << 8)
  {
    hide FourSteps, Shift8;
    var hi, lo := BitsOf(b)[..4], BitsOf(b)[4..];
    assert BitsOf(b) == hi + lo;
    SerialAppend(0, hi, lo);
    SerialOfFour(0, hi);
    SerialOfFour(Serial(0, hi), lo);
    ByteEnters(b);
  }

  const ZEROS: seq<bool> := [false, false, false, false, false, false, false, false]

  lemma SerialOfZeros(crc: bv16)
    ensures Serial(crc, ZEROS) == Shift8(crc)
  {
    hide BitStep;
    SerialAppend(crc, ZEROS[..4], ZEROS[4..]);
    assert ZEROS == ZEROS[..4] + ZEROS[4..];
    SerialOfFour(crc, ZEROS[..4]);
    SerialOfFour(Serial(crc, ZEROS[..4]), ZEROS[4..]);
  }

  /** One turn of the loop. */
  function ByteStep(crc: bv16, b: bv8): bv16 {
    (crc << 8) ^ TableEntry(TableIndex(crc, b))
  }

  /** The table index: the top byte of the register, with the message byte added. */
  function TableIndex(crc: bv16, b: bv8): bv8 {
    ((crc >> 8) & 0xFF) as bv8 ^ b
  }

  function TopByte(b: bv8): bv16 { (b as bv16) << 8 }

  function LowByte(crc: bv16): bv16 { crc & 0xFF }

  lemma SplitRegister(crc: bv16, b: bv8)
    ensures Xor(crc, TopByte(b)) == Xor(LowByte(crc), TopByte(TableIndex(crc, b)))
  {
  }

  lemma ByteStepParts(crc: bv16, b: bv8)
    ensures ByteStep(crc, b) == Xor(Shift8(LowByte(crc)), Shift8(TopByte(TableIndex(crc, b))))
  {
    hide TableEntry, Shift8;
    LowByteShifts(crc);
    TableIsShift(TableIndex(crc, b));
  }

  /** One turn of the loop divides by the polynomial over the eight bits of the byte. */
  lemma ByteStepIsSerial(crc: bv16, b: bv8)
    ensures ByteStep(crc, b) == Serial(crc, BitsOf(b))
  {
    hide Xor, Shift8, Serial, ByteStep, BitsOf, XorBits, LowByte, TableIndex;
    XorCancels(crc);
    AssertZeroXor(b);
    SerialLinear(crc, 0, ZEROS, BitsOf(b));
    SerialOfZeros(crc);
    SerialOfByte(b);
    Shift8Linear(crc, TopByte(b));
    SplitRegister(crc, b);
    Shift8Linear(LowByte(crc), TopByte(TableIndex(crc, b)));
    ByteStepParts(crc, b);
  }

  lemma AssertZeroXor(b: bv8)
    ensures XorBits(ZEROS, BitsOf(b)) == BitsOf(b)
  {
  }

  /** The function crc_t10dif: the table-driven loop computes the bit-serial checksum of
      the whole buffer. */
  method CrcT10Dif(buffer: seq<bv8>) returns (crc: bv16)
    ensures crc == Serial(0, Message(buffer))
  {
    hide ByteStep;
    crc := 0;
    for i := 0 to |buffer|
      invariant Serial(0, Message(buffer)) == Serial(crc, Message(buffer[i..]))
    {
      assert buffer[i..][1..] == buffer[i + 1..];
      SerialAppend(crc, BitsOf(buffer[i]), Message(buffer[i + 1..]));
      ByteStepIsSerial(crc, buffer[i]);
      crc := ByteStep(crc, buffer[i]);
    }
  }

  function XorByte(a: bv8, b: bv8): bv8 { a ^ b }

  function XorBytes(a: seq<bv8>, b: seq<bv8>): (c: seq<bv8>)
    requires |a| == |b|
    ensures |c| == |a|
  {
    seq(|a|, i requires 0 <= i < |a| => XorByte(a[i], b[i]))
  }

  /** Checksums of equally long buffers add up like the buffers. */
  lemma {:induction false} ChecksumLinear(a: seq<bv8>, b: seq<bv8>)
    requires |a| == |b|
    ensures |Message(a)| == |Message(b)| && Message(XorBytes(a, b)) == XorBits(Message(a), Message(b))
    ensures Serial(0, Message(XorBytes(a, b))) == Xor(Serial(0, Message(a)), Serial(0, Message(b)))
  {
    MessageLinear(a, b);
    XorCancels(0);
    SerialLinear(0, 0, Message(a), Message(b));
  }

  lemma BitLinear(a: bv8, b: bv8, m: bv8)
    requires m & (m - 1) == 0
    ensures Bit(XorByte(a, b), m) == (Bit(a, m) != Bit(b, m))
  {
  }

  /** The mask of bit `k`, counted from the most significant one. */
  function Mask(k: nat): (m: bv8)
    requires k < 8
    ensures m & (m - 1) == 0
  {
    0x80 >> k
  }

  lemma BitAt(b: bv8, k: nat)
    requires k < 8
    ensures BitsOf(b)[k] == Bit(b, Mask(k))
  {
    hide Bit, Mask;
    Masks();
  }

  lemma Masks()
    ensures Mask(0) == 0x80 && Mask(1) == 0x40 && Mask(2) == 0x20 && Mask(3) == 0x10
    ensures Mask(4) == 0x08 && Mask(5) == 0x04 && Mask(6) == 0x02 && Mask(7) == 0x01
  {
  }

  lemma BitsLinear(a: bv8, b: bv8)
    ensures BitsOf(XorByte(a, b)) == XorBits(BitsOf(a), BitsOf(b))
  {
    hide Bit, XorByte, BitsOf, Mask;
    forall k | 0 <= k < 8
      ensures BitsOf(XorByte(a, b))[k] == XorBits(BitsOf(a), BitsOf(b))[k]
    {
      BitAt(a, k);
      BitAt(b, k);
      BitAt(XorByte(a, b), k);
      BitLinear(a, b, Mask(k));
    }
  }

  lemma {:induction false} MessageLinear(a: seq<bv8>, b: seq<bv8>)
    requires |a| == |b|
    ensures |Message(a)| == |Message(b)| && Message(XorBytes(a, b)) == XorBits(Message(a), Message(b))
  {
    hide BitsOf, XorByte;
    if a != [] {
      BitsLinear(a[0], b[0]);
      MessageLinear(a[1..], b[1..]);
      assert XorBytes(a, b)[1..] == XorBytes(a[1..], b[1..]);
    }
  }
}
