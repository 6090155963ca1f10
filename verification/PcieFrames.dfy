/** Frames of the PCIe forwarding protocol: a two-byte size, then a message or a reply. */
module PcieFrames {
  import opened Modular

  type Byte = n: nat | n < 256

  // ---------------------------------------------------------------------------
  // Little-endian integers
  // ---------------------------------------------------------------------------

  /** 256 to the power `k`. */
  function Limit(k: nat): (r: nat)
    ensures r >= 1
  {
    if k == 0 then 1 else 256 * Limit(k - 1)
  }

  function Le(v: nat, k: nat): (s: seq<Byte>)
    ensures |s| == k
  {
    if k == 0 then [] else [v % 256] + Le(v / 256, k - 1)
  }

  function FromLe(s: seq<Byte>): nat {
    if s == [] then 0 else s[0] + 256 * FromLe(s[1..])
  }

  lemma {:induction false} FromLeOfLe(v: nat, k: nat)
    requires v < Limit(k)
    ensures FromLe(Le(v, k)) == v
  {
    if k > 0 {
      FromLeOfLe(v / 256, k - 1);
      assert Le(v, k)[1..] == Le(v / 256, k - 1);
    }
  }

  lemma {:induction false} LeOfFromLe(s: seq<Byte>)
    ensures Le(FromLe(s), |s|) == s && FromLe(s) < Limit(|s|)
  {
    if s != [] {
      LeOfFromLe(s[1..]);
      var v := FromLe(s);
      assert v / 256 == FromLe(s[1..]) && v % 256 == s[0];
    }
  }

  lemma {:induction false} LeTakes(v: nat, k: nat, w: nat)
    requires w <= k
    ensures Le(v, k)[..w] == Le(v, w)
  {
    if w > 0 {
      LeTakes(v / 256, k - 1, w - 1);
      assert Le(v, k)[..w] == [v % 256] + Le(v / 256, k - 1)[..w - 1];
    }
  }

  /** The low `w` bytes hold the value modulo 256 to the power `w`. */
  lemma {:induction false} LeModulo(v: nat, w: nat)
    ensures exists q: nat :: v == Times(q, Limit(w)) + FromLe(Le(v, w))
    ensures FromLe(Le(v, w)) < Limit(w)
  {
    LeOfFromLe(Le(v, w));
    if w == 0 {
      TimesOne(v);
      assert v == Times(v, Limit(0)) + FromLe(Le(v, 0));
    } else {
      LeModulo(v / 256, w - 1);
      var q: nat :| v / 256 == Times(q, Limit(w - 1)) + FromLe(Le(v / 256, w - 1));
      TimesScaled(q, Limit(w - 1));
      assert Le(v, w)[1..] == Le(v / 256, w - 1);
      assert v == Times(q, Limit(w)) + FromLe(Le(v, w));
    }
  }

  lemma {:induction false} TimesOne(q: nat)
    ensures Times(q, 1) == q
  {
    if q > 0 { TimesOne(q - 1); }
  }

  lemma {:induction false} TimesScaled(q: nat, l: nat)
    ensures Times(q, 256 * l) == 256 * Times(q, l)
  {
    if q > 0 { TimesScaled(q - 1, l); }
  }

  // ---------------------------------------------------------------------------
  // Messages and replies
  // ---------------------------------------------------------------------------

  const READ_CONFIG: Byte := 0
  const WRITE_CONFIG: Byte := 1
  const READ_MEM: Byte := 2
  const WRITE_MEM: Byte := 3
  const READ_IO: Byte := 4
  const MSI: Byte := 7

  const MSG_HEADER := 15           // bytes before the payload of a message
  const MAX_PAYLOAD := 0x1000
  const REPLY_SIZE := 11

  datatype Msg = Msg(op: Byte, bar: Byte, width: Byte, addr: nat, data: seq<Byte>)

  datatype Reply = Reply(status: Byte, data: seq<Byte>)

  predicate MsgFits(m: Msg) { m.addr < Limit(8) && |m.data| <= MAX_PAYLOAD }

  predicate ReplyFits(r: Reply) { |r.data| == 8 }

  function MsgBytes(m: Msg): seq<Byte> {
    Le(MSG_HEADER + |m.data|, 2) + [m.op, m.bar, m.width] + Le(m.addr, 8) + Le(|m.data|, 2) + m.data
  }

  function ReplyBytes(r: Reply): seq<Byte> {
    Le(REPLY_SIZE, 2) + [r.status] + r.data
  }

  /** A frame whose two size fields agree. */
  predicate IsMsg(f: seq<Byte>) {
    |f| >= MSG_HEADER && |f| == MSG_HEADER + FromLe(f[13..15])
  }

  function ParseMsg(f: seq<Byte>): Msg
    requires IsMsg(f)
  {
    Msg(f[2], f[3], f[4], FromLe(f[5..13]), f[15..])
  }

  /** The receiver tells a reply from a message by its size alone. */
  predicate IsReply(f: seq<Byte>)
    requires |f| >= 2
  {
    FromLe(f[..2]) <= REPLY_SIZE
  }

  function ParseReply(f: seq<Byte>): Reply
    requires |f| == REPLY_SIZE
  {
    Reply(f[2], f[3..])
  }

  /** The header is read first; the announced rest is then waited for.  A frame that is too
      big is refused when its header has been read.  A size smaller than the header makes
      the rest wrap around to more bytes than any stream holds. */
  datatype Received = Frame(bytes: seq<Byte>, rest: seq<Byte>) | TooBig(rest: seq<Byte>) | Waiting

  function Recv(stream: seq<Byte>, max: nat): Received {
    if |stream| < 2 then Waiting
    else
      var size := FromLe(stream[..2]);
      if size > max then TooBig(stream[2..])
      else if size < 2 || |stream| < size then Waiting
      else Frame(stream[..size], stream[size..])
  }

  const MAX_MSG := MSG_HEADER + MAX_PAYLOAD

  lemma SizeField(v: nat)
    requires v < 0x10000
    ensures FromLe(Le(v, 2)) == v
  {
    assert Limit(2) == 0x10000;
    FromLeOfLe(v, 2);
  }

  lemma MsgLayout(m: Msg)
    requires MsgFits(m)
    ensures
      var f := MsgBytes(m);
      && |f| == MSG_HEADER + |m.data| && f[..2] == Le(MSG_HEADER + |m.data|, 2)
      && f[2] == m.op && f[3] == m.bar && f[4] == m.width
      && f[5..13] == Le(m.addr, 8) && f[13..15] == Le(|m.data|, 2) && f[15..] == m.data
  {
    hide Le;
  }

  /** Parsing undoes serialising, whatever follows on the stream, and a message is never
      taken for a reply. */
  lemma MsgRoundTrip(m: Msg, rest: seq<Byte>)
    requires MsgFits(m)
    ensures Recv(MsgBytes(m) + rest, MAX_MSG) == Frame(MsgBytes(m), rest)
    ensures |MsgBytes(m)| >= 2 && !IsReply(MsgBytes(m))
    ensures IsMsg(MsgBytes(m)) && ParseMsg(MsgBytes(m)) == m
  {
    hide Le, FromLe, MsgBytes, Limit;
    MsgLayout(m);
    SizeField(MSG_HEADER + |m.data|);
    SizeField(|m.data|);
    FromLeOfLe(m.addr, 8);
    assert (MsgBytes(m) + rest)[..2] == MsgBytes(m)[..2];
  }

  lemma ReplyRoundTrip(r: Reply, rest: seq<Byte>)
    requires ReplyFits(r)
    ensures Recv(ReplyBytes(r) + rest, MAX_MSG) == Frame(ReplyBytes(r), rest)
    ensures |ReplyBytes(r)| == REPLY_SIZE && IsReply(ReplyBytes(r)) && ParseReply(ReplyBytes(r)) == r
  {
    hide Le, FromLe;
    SizeField(REPLY_SIZE);
    var f := ReplyBytes(r);
    assert f[..2] == Le(REPLY_SIZE, 2) && (f + rest)[..2] == f[..2];
    assert f[3..] == r.data;
    assert (f + rest)[..11] == f && (f + rest)[11..] == rest;
  }

  // ---------------------------------------------------------------------------
  // Streams
  // ---------------------------------------------------------------------------

  /** What a device puts on its stream: accesses and interrupts of its own, and replies. */
  datatype Item = Down(msg: Msg) | Answer(reply: Reply)

  predicate ItemFits(i: Item) {
    match i case Down(m) => MsgFits(m) case Answer(r) => ReplyFits(r)
  }

  predicate AllFit(l: seq<Item>) {
    forall k :: 0 <= k < |l| ==> ItemFits(l[k])
  }

  function ItemBytes(i: Item): seq<Byte> {
    match i case Down(m) => MsgBytes(m) case Answer(r) => ReplyBytes(r)
  }

  /** The results of `f` on all elements, one after the other. */
  function Flat<T, U>(l: seq<T>, f: T -> seq<U>): seq<U> {
    if l == [] then [] else f(l[0]) + Flat(l[1..], f)
  }

  lemma {:induction false} FlatJoin<T, U>(a: seq<T>, b: seq<T>, f: T -> seq<U>)
    ensures Flat(a + b, f) == Flat(a, f) + Flat(b, f)
  {
    if a == [] {
      assert a + b == b;
    } else {
      FlatJoin(a[1..], b, f);
      assert (a + b)[0] == a[0] && (a + b)[1..] == a[1..] + b;
    }
  }

  lemma FlatOne<T, U>(x: T, f: T -> seq<U>)
    ensures Flat([x], f) == f(x)
  {
    assert [x][1..] == [] && Flat([x], f) == f(x) + [];
  }

  function StreamBytes(l: seq<Item>): seq<Byte> { Flat(l, ItemBytes) }

  lemma StreamJoin(a: seq<Item>, b: seq<Item>)
    ensures StreamBytes(a + b) == StreamBytes(a) + StreamBytes(b)
  {
    FlatJoin(a, b, ItemBytes);
  }

  /** The next frame of a stream of items is its first item, and tells which kind it is. */
  lemma NextItem(l: seq<Item>, rest: seq<Byte>)
    requires l != [] && ItemFits(l[0])
    ensures Recv(StreamBytes(l) + rest, MAX_MSG) == Frame(ItemBytes(l[0]), StreamBytes(l[1..]) + rest)
    ensures |ItemBytes(l[0])| >= 2
    ensures IsReply(ItemBytes(l[0])) <==> l[0].Answer?
    ensures l[0].Answer? ==> |ItemBytes(l[0])| == REPLY_SIZE && ParseReply(ItemBytes(l[0])) == l[0].reply
    ensures l[0].Down? ==> IsMsg(ItemBytes(l[0])) && ParseMsg(ItemBytes(l[0])) == l[0].msg
  {
    hide Recv, MsgBytes, ReplyBytes, IsReply, IsMsg, ParseMsg, ParseReply;
    var tail := StreamBytes(l[1..]) + rest;
    assert StreamBytes(l) + rest == ItemBytes(l[0]) + tail;
    match l[0]
    case Down(m) => MsgRoundTrip(m, tail);
    case Answer(r) => ReplyRoundTrip(r, tail);
  }

  function DownOf(i: Item): seq<Msg> {
    match i case Down(m) => [m] case Answer(_) => []
  }

  function AnswerOf(i: Item): seq<Reply> {
    match i case Down(_) => [] case Answer(r) => [r]
  }

  function Downs(l: seq<Item>): seq<Msg> { Flat(l, DownOf) }

  function Answers(l: seq<Item>): seq<Reply> { Flat(l, AnswerOf) }

  lemma ItemsJoin(a: seq<Item>, b: seq<Item>)
    ensures Downs(a + b) == Downs(a) + Downs(b) && Answers(a + b) == Answers(a) + Answers(b)
  {
    FlatJoin(a, b, DownOf);
    FlatJoin(a, b, AnswerOf);
  }

  lemma ItemsOne(i: Item)
    ensures Downs([i]) == DownOf(i) && Answers([i]) == AnswerOf(i) && StreamBytes([i]) == ItemBytes(i)
  {
    FlatOne(i, DownOf);
    FlatOne(i, AnswerOf);
    FlatOne(i, ItemBytes);
  }

  // ---------------------------------------------------------------------------
  // Receiving
  // ---------------------------------------------------------------------------

  /** The header is received into the buffer, then the rest behind it. */
  method RecvBuf(buf: array<Byte>, max: nat, stream: seq<Byte>) returns (ok: bool, n: nat, rest: seq<Byte>)
    requires 2 <= max <= buf.Length
    modifies buf
    ensures ok <==> Recv(stream, max).Frame?
    ensures ok ==> n == |Recv(stream, max).bytes| <= buf.Length
    ensures ok ==> buf[..n] == Recv(stream, max).bytes && rest == Recv(stream, max).rest
    ensures ok ==> buf[n..] == old(buf[n..])
    ensures Recv(stream, max).TooBig? ==> rest == Recv(stream, max).rest && buf[..2] + rest == stream
    ensures Recv(stream, max).Waiting? ==> rest == stream
    ensures !ok ==> buf[2..] == old(buf[2..])
  {
    ok, n, rest := false, 0, stream;
    if |stream| < 2 {
      return;
    }
    buf[0], buf[1] := stream[0], stream[1];
    var size := FromLe(stream[..2]);
    if size > max {
      rest := stream[2..];
      return;
    }
    if size < 2 || |stream| < size {
      return;
    }
    var k := 2;
    while k < size
      invariant 2 <= k <= size
      invariant forall j :: 0 <= j < k ==> buf[j] == stream[j]
      invariant forall j :: k <= j < buf.Length ==> buf[j] == old(buf[j])
    {
      buf[k] := stream[k];
      k := k + 1;
    }
    ok, n, rest := true, size, stream[size..];
  }

  /** The device's own version keeps the header in a variable: the first two bytes of the
      message buffer stay as they were, and nothing that is parsed depends on them. */
  method DeviceRecvBuf(buf: array<Byte>, max: nat, stream: seq<Byte>) returns (ok: bool, n: nat, rest: seq<Byte>)
    requires 2 <= max <= buf.Length
    modifies buf
    ensures ok <==> Recv(stream, max).Frame?
    ensures ok ==> n == |Recv(stream, max).bytes| <= buf.Length && rest == Recv(stream, max).rest && n >= 2
    ensures ok ==> buf[2..n] == Recv(stream, max).bytes[2..] && buf[..2] == old(buf[..2]) && buf[n..] == old(buf[n..])
    ensures Recv(stream, max).TooBig? ==> rest == Recv(stream, max).rest && stream[..2] + rest == stream
    ensures Recv(stream, max).Waiting? ==> rest == stream
    ensures !ok ==> buf[..] == old(buf[..])
  {
    ok, n, rest := false, 0, stream;
    if |stream| < 2 {
      return;
    }
    var size := FromLe(stream[..2]);
    if size > max {
      rest := stream[2..];
      return;
    }
    if size < 2 || |stream| < size {
      return;
    }
    var k := 2;
    while k < size
      invariant 2 <= k <= size
      invariant forall j :: 2 <= j < k ==> buf[j] == stream[j]
      invariant forall j :: 0 <= j < buf.Length && (j < 2 || k <= j) ==> buf[j] == old(buf[j])
    {
      buf[k] := stream[k];
      k := k + 1;
    }
    ok, n, rest := true, size, stream[size..];
  }

  lemma ParseIgnoresHeader(f: seq<Byte>, g: seq<Byte>)
    requires |f| == |g| >= 2 && f[2..] == g[2..] && IsMsg(f)
    ensures IsMsg(g) && ParseMsg(g) == ParseMsg(f)
  {
    assert forall k :: 2 <= k < |f| ==> f[k] == f[2..][k - 2] == g[2..][k - 2] == g[k];
    assert f[13..15] == g[13..15] && f[5..13] == g[5..13] && f[15..] == g[15..];
  }

  /** Items up to and including the first reply. */
  ghost predicate UpToReply(l: seq<Item>) {
    && l != [] && AllFit(l) && l[|l| - 1].Answer?
    && forall k :: 0 <= k < |l| - 1 ==> l[k].Down?
  }

  lemma UpToReplyStep(l: seq<Item>)
    requires UpToReply(l)
    ensures l[0].Answer? ==> l[1..] == [] && Downs(l) == [] && Answers(l) == [l[0].reply] && l[|l| - 1] == l[0]
    ensures l[0].Down? ==> UpToReply(l[1..]) && Downs(l) == [l[0].msg] + Downs(l[1..]) && Answers(l) == Answers(l[1..])
    ensures l[0].Down? ==> l[1..][|l| - 2] == l[|l| - 1]
  {
    hide ItemFits;
    if l[0].Answer? {
      assert l == [l[0]];
      ItemsOne(l[0]);
    }
  }

  /** Waiting for a reply: messages received meanwhile are applied at once. */
  method RecvReply(stream: seq<Byte>, ghost items: seq<Item>, ghost after: seq<Byte>)
    returns (reply: Reply, rest: seq<Byte>, applied: seq<Msg>)
    requires UpToReply(items) && stream == StreamBytes(items) + after
    ensures reply == items[|items| - 1].reply && rest == after
    ensures applied == Downs(items) && Answers(items) == [reply]
  {
    hide Recv, ItemBytes, IsReply, IsMsg, ParseMsg, ParseReply, Downs, Answers;
    ghost var left := items;
    applied, rest := [], stream;
    while true
      invariant UpToReply(left) && left[|left| - 1] == items[|items| - 1]
      invariant rest == StreamBytes(left) + after
      invariant applied + Downs(left) == Downs(items)
      invariant Answers(left) == Answers(items)
      decreases |left|
    {
      UpToReplyStep(left);
      NextItem(left, after);
      var r := Recv(rest, MAX_MSG);
      rest := r.rest;
      if IsReply(r.bytes) {
        reply := ParseReply(r.bytes);
        assert StreamBytes([]) == [];
        return;
      }
      applied := applied + [ParseMsg(r.bytes)];
      left := left[1..];
    }
  }

  /** What a blocking read hands to the guest: the reply narrowed to the access width. */
  function Narrow(data: seq<Byte>, width: nat): nat
    requires |data| == 8
  {
    if width == 1 || width == 2 || width == 4 || width == 8 then FromLe(data[..width]) else 0
  }

  /** The narrowed value is the device's value modulo the access width. */
  lemma NarrowModulo(v: nat, width: nat)
    requires width in {1, 2, 4, 8}
    ensures exists q: nat :: v == Times(q, Limit(width)) + Narrow(Le(v, 8), width)
    ensures Narrow(Le(v, 8), width) < Limit(width)
  {
    LeTakes(v, 8, width);
    LeModulo(v, width);
  }
}
