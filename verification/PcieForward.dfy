/** The emulated machine and the simulated device, each at one end of two byte streams.

    The machine blocks on a read until the reply comes; meanwhile and at any other time it
    applies the accesses and interrupts that the device sends.  The device handles one
    message at a time and sends when it likes. */
module PcieForward {
  import opened PcieFrames

  /** The two streams and whether the machine waits; the rest is history. */
  datatype State = State(
    toDevice: seq<Byte>, toMachine: seq<Byte>, waiting: bool,
    sent: seq<Msg>, handled: nat,                  // messages to the device
    out: seq<Item>, received: nat,                 // what the device has sent
    applied: seq<Msg>,                             // device accesses applied by the machine
    replied: seq<(Msg, Reply)>,                    // reads answered by the device
    results: seq<(Msg, Reply)>)                    // reads completed by the machine

  datatype Event =
    | Access(msg: Msg)             // the machine sends a read, and waits, or a write
    | MachineReceives
    | DeviceHandles(reply: Reply)  // the device takes a message; the reply is its answer to a read
    | DeviceSends(msg: Msg)        // a DMA write or an interrupt

  predicate MustReply(op: Byte) { op == READ_CONFIG || op == READ_MEM || op == READ_IO }

  predicate Possible(e: Event) {
    match e
    case Access(m) => MsgFits(m)
    case DeviceHandles(r) => ReplyFits(r)
    case DeviceSends(m) => MsgFits(m)
    case MachineReceives => true
  }

  function Step(s: State, e: Event): State {
    match e
    case Access(m) =>
      if s.waiting then s
      else s.(toDevice := s.toDevice + MsgBytes(m), sent := s.sent + [m], waiting := MustReply(m.op))
    case DeviceSends(m) => s.(toMachine := s.toMachine + MsgBytes(m), out := s.out + [Down(m)])
    case DeviceHandles(r) => Handle(s, r)
    case MachineReceives => Receive(s)
  }

  function Handle(s: State, r: Reply): State {
    match Recv(s.toDevice, MAX_MSG)
    case Frame(f, rest) =>
      if !IsMsg(f) then s.(toDevice := rest)
      else
        var m := ParseMsg(f);
        var t := s.(toDevice := rest, handled := s.handled + 1);
        if MustReply(m.op)
        then t.(toMachine := s.toMachine + ReplyBytes(r), out := s.out + [Answer(r)], replied := s.replied + [(m, r)])
        else t
    case TooBig(rest) => s.(toDevice := rest)
    case Waiting => s
  }

  /** Outside a read every frame is processed as a message. */
  function Receive(s: State): State {
    match Recv(s.toMachine, MAX_MSG)
    case Frame(f, rest) =>
      var t := s.(toMachine := rest, received := s.received + 1);
      if s.waiting && |f| == REPLY_SIZE && IsReply(f) && s.sent != []
      then t.(waiting := false, results := s.results + [(s.sent[|s.sent| - 1], ParseReply(f))])
      else if IsMsg(f) then t.(applied := s.applied + [ParseMsg(f)])
      else t
    case TooBig(rest) => s.(toMachine := rest)
    case Waiting => s
  }

  // ---------------------------------------------------------------------------
  // Messages as items
  // ---------------------------------------------------------------------------

  function AsItem(m: Msg): seq<Item> { [Down(m)] }

  /** Configuration, memory and I/O reads, by their codes. */
  predicate IsRead(op: Byte) { op == 0 || op == 2 || op == 4 }

  function ReadOf(m: Msg): seq<Msg> { if IsRead(m.op) then [m] else [] }

  function AsItems(ms: seq<Msg>): seq<Item> { Flat(ms, AsItem) }

  function Reads(ms: seq<Msg>): seq<Msg> { Flat(ms, ReadOf) }

  function Requests(l: seq<(Msg, Reply)>): seq<Msg> {
    seq(|l|, k requires 0 <= k < |l| => l[k].0)
  }

  function Replies(l: seq<(Msg, Reply)>): seq<Reply> {
    seq(|l|, k requires 0 <= k < |l| => l[k].1)
  }

  lemma MsgsJoin(a: seq<Msg>, b: seq<Msg>)
    ensures AsItems(a + b) == AsItems(a) + AsItems(b) && Reads(a + b) == Reads(a) + Reads(b)
  {
    FlatJoin(a, b, AsItem);
    FlatJoin(a, b, ReadOf);
  }

  lemma MsgsOne(m: Msg)
    ensures AsItems([m]) == [Down(m)] && Reads([m]) == ReadOf(m)
  {
    FlatOne(m, AsItem);
    FlatOne(m, ReadOf);
  }

  // ---------------------------------------------------------------------------
  // The invariant
  // ---------------------------------------------------------------------------

  predicate AllMsgsFit(ms: seq<Msg>) {
    forall k :: 0 <= k < |ms| ==> MsgFits(ms[k])
  }

  /** What is on the two streams. */
  predicate Streams(s: State) {
    && s.handled <= |s.sent| && s.received <= |s.out|
    && s.toDevice == StreamBytes(AsItems(s.sent[s.handled..]))
    && s.toMachine == StreamBytes(s.out[s.received..])
    && AllMsgsFit(s.sent) && AllFit(s.out)
  }

  /** Requests and replies correspond one to one, in order. */
  predicate Matched(s: State)
    requires s.handled <= |s.sent| && s.received <= |s.out|
  {
    && s.applied == Downs(s.out[..s.received])
    && Replies(s.replied) == Answers(s.out)
    && Requests(s.replied) == Reads(s.sent[..s.handled])
    && s.results <= s.replied
    && |s.results| == |Answers(s.out[..s.received])|
    && |Reads(s.sent)| == |s.results| + (if s.waiting then 1 else 0)
    && (s.waiting ==> s.sent != [] && IsRead(s.sent[|s.sent| - 1].op))
  }

  predicate Inv(s: State) { Streams(s) && Matched(s) }

  const START := State([], [], false, [], 0, [], 0, [], [], [])

  lemma StartInv()
    ensures Inv(START)
  {
    assert Replies([]) == [] && Requests([]) == [];
  }

  function Accessed(s: State, m: Msg): State {
    s.(toDevice := s.toDevice + MsgBytes(m), sent := s.sent + [m], waiting := MustReply(m.op))
  }

  lemma AccessedStreams(s: State, m: Msg)
    requires Streams(s) && MsgFits(m)
    ensures Streams(Accessed(s, m))
  {
    hide StreamBytes, AsItems, MsgBytes, AllFit, MsgFits;
    assert (s.sent + [m])[s.handled..] == s.sent[s.handled..] + [m];
    MsgsJoin(s.sent[s.handled..], [m]);
    MsgsOne(m);
    StreamJoin(AsItems(s.sent[s.handled..]), [Down(m)]);
    ItemsOne(Down(m));
  }

  lemma AccessedMatched(s: State, m: Msg)
    requires Inv(s) && !s.waiting
    ensures Matched(Accessed(s, m))
  {
    hide StreamBytes, AsItems, MsgBytes, AllFit, AllMsgsFit, Reads, Answers, Downs;
    assert (s.sent + [m])[..s.handled] == s.sent[..s.handled];
    MsgsJoin(s.sent, [m]);
    MsgsOne(m);
  }

  lemma AccessKeeps(s: State, m: Msg)
    requires Inv(s) && MsgFits(m)
    ensures Inv(Step(s, Access(m)))
  {
    hide Streams, Matched, MsgBytes;
    if !s.waiting {
      AccessedStreams(s, m);
      AccessedMatched(s, m);
    }
  }

  /** The device puts one item on its stream. */
  lemma Emitted(s: State, i: Item)
    requires s.received <= |s.out| && AllFit(s.out) && ItemFits(i) && s.toMachine == StreamBytes(s.out[s.received..])
    ensures s.toMachine + ItemBytes(i) == StreamBytes((s.out + [i])[s.received..])
    ensures AllFit(s.out + [i]) && (s.out + [i])[..s.received] == s.out[..s.received]
    ensures Answers(s.out + [i]) == Answers(s.out) + (if i.Answer? then [i.reply] else [])
  {
    hide ItemBytes, ItemFits;
    assert (s.out + [i])[s.received..] == s.out[s.received..] + [i];
    StreamJoin(s.out[s.received..], [i]);
    ItemsJoin(s.out, [i]);
    ItemsOne(i);
  }

  lemma DeviceSendsKeeps(s: State, m: Msg)
    requires Inv(s) && MsgFits(m)
    ensures Inv(Step(s, DeviceSends(m)))
  {
    Emitted(s, Down(m));
    hide StreamBytes, MsgBytes, Answers, Downs, Reads, AsItems;
  }

  /** The next message for the device is the first that it has not handled. */
  lemma NextForDevice(s: State)
    requires Streams(s) && s.handled < |s.sent|
    ensures
      var m := s.sent[s.handled];
      && Recv(s.toDevice, MAX_MSG) == Frame(MsgBytes(m), StreamBytes(AsItems(s.sent[s.handled + 1..])))
      && IsMsg(MsgBytes(m)) && ParseMsg(MsgBytes(m)) == m
  {
    hide Recv, IsMsg, ParseMsg, MsgBytes;
    var l := AsItems(s.sent[s.handled..]);
    assert s.sent[s.handled..][1..] == s.sent[s.handled + 1..];
    assert l[0] == Down(s.sent[s.handled]) && l[1..] == AsItems(s.sent[s.handled + 1..]);
    NextItem(l, []);
    assert StreamBytes(l) + [] == s.toDevice;
    assert StreamBytes(l[1..]) + [] == StreamBytes(l[1..]);
  }

  lemma NoneForDevice(s: State)
    requires Streams(s) && s.handled >= |s.sent|
    ensures Recv(s.toDevice, MAX_MSG) == Waiting
  {
    assert s.sent[s.handled..] == [];
  }

  /** What the device does with the next message. */
  function Handled(s: State, m: Msg, r: Reply): State
    requires s.handled < |s.sent|
  {
    var t := s.(toDevice := StreamBytes(AsItems(s.sent[s.handled + 1..])), handled := s.handled + 1);
    if MustReply(m.op)
    then t.(toMachine := s.toMachine + ReplyBytes(r), out := s.out + [Answer(r)], replied := s.replied + [(m, r)])
    else t
  }

  lemma HandleIs(s: State, r: Reply)
    requires Streams(s)
    ensures Handle(s, r) == if s.handled < |s.sent| then Handled(s, s.sent[s.handled], r) else s
  {
    hide StreamBytes, AsItems, MsgBytes, IsMsg, ParseMsg, Recv, ReplyBytes, Streams;
    if s.handled < |s.sent| { NextForDevice(s); } else { NoneForDevice(s); }
  }

  lemma HandledStreams(s: State, r: Reply)
    requires Streams(s) && s.handled < |s.sent| && ReplyFits(r)
    ensures Streams(Handled(s, s.sent[s.handled], r))
  {
    Emitted(s, Answer(r));
    hide StreamBytes, AsItems, ReplyBytes, Answers, AllFit, AllMsgsFit;
  }

  lemma HandledMatched(s: State, r: Reply)
    requires Streams(s) && Matched(s) && s.handled < |s.sent| && ReplyFits(r)
    ensures Matched(Handled(s, s.sent[s.handled], r))
  {
    hide Reads, StreamBytes, AsItems, Answers, Downs, ReplyBytes, AllFit, AllMsgsFit;
    var m := s.sent[s.handled];
    assert s.sent[..s.handled + 1] == s.sent[..s.handled] + [m];
    MsgsJoin(s.sent[..s.handled], [m]);
    MsgsOne(m);
    Emitted(s, Answer(r));
    assert Replies(s.replied + [(m, r)]) == Replies(s.replied) + [r];
    assert Requests(s.replied + [(m, r)]) == Requests(s.replied) + [m];
  }

  lemma HandleKeeps(s: State, r: Reply)
    requires Inv(s) && ReplyFits(r)
    ensures Inv(Handle(s, r))
  {
    hide Streams, Handle, Handled;
    HandleIs(s, r);
    if s.handled < |s.sent| {
      HandledStreams(s, r);
      HandledMatched(s, r);
    }
  }

  /** The next frame for the machine is the first item that it has not received. */
  lemma NextForMachine(s: State)
    requires Streams(s) && s.received < |s.out|
    ensures
      var i := s.out[s.received];
      && Recv(s.toMachine, MAX_MSG) == Frame(ItemBytes(i), StreamBytes(s.out[s.received + 1..]))
      && |ItemBytes(i)| >= 2
      && (i.Answer? ==> |ItemBytes(i)| == REPLY_SIZE && IsReply(ItemBytes(i)) && ParseReply(ItemBytes(i)) == i.reply)
      && (i.Down? ==> !IsReply(ItemBytes(i)) && IsMsg(ItemBytes(i)) && ParseMsg(ItemBytes(i)) == i.msg)
  {
    hide Recv, IsMsg, ParseMsg, ItemBytes, IsReply, ParseReply, ItemFits;
    var l := s.out[s.received..];
    assert l[1..] == s.out[s.received + 1..];
    NextItem(l, []);
    assert StreamBytes(l) + [] == s.toMachine;
    assert StreamBytes(l[1..]) + [] == StreamBytes(l[1..]);
  }

  lemma NoneForMachine(s: State)
    requires Streams(s) && s.received >= |s.out|
    ensures Recv(s.toMachine, MAX_MSG) == Waiting
  {
    assert s.out[s.received..] == [];
  }

  /** A reply on its way means that the machine waits for it, that every read has been
      handled, and that it answers the last message sent. */
  lemma ReplyIsAwaited(s: State)
    requires Inv(s) && s.received < |s.out| && s.out[s.received].Answer?
    ensures s.waiting && s.sent != [] && |s.results| + 1 == |s.replied|
    ensures s.replied[|s.results|] == (s.sent[|s.sent| - 1], s.out[s.received].reply)
  {
    hide StreamBytes, AsItems, Answers, Reads, Downs, AllFit, AllMsgsFit;
    var before, i, after := s.out[..s.received], s.out[s.received], s.out[s.received + 1..];
    assert s.out == before + ([i] + after);
    ItemsJoin(before, [i] + after);
    ItemsJoin([i], after);
    ItemsOne(i);
    assert s.sent == s.sent[..s.handled] + s.sent[s.handled..];
    MsgsJoin(s.sent[..s.handled], s.sent[s.handled..]);
    assert |Replies(s.replied)| == |Requests(s.replied)| == |s.replied|;
    assert Replies(s.replied)[|s.results|] == i.reply;
    LastRead(s.sent);
    assert Requests(s.replied) == Reads(s.sent);
    assert Requests(s.replied)[|s.results|] == s.sent[|s.sent| - 1];
  }

  lemma LastRead(ms: seq<Msg>)
    requires ms != [] && IsRead(ms[|ms| - 1].op)
    ensures Reads(ms) != [] && Reads(ms)[|Reads(ms)| - 1] == ms[|ms| - 1]
  {
    var a, z := ms[..|ms| - 1], ms[|ms| - 1];
    assert ms == a + [z];
    MsgsJoin(a, [z]);
    MsgsOne(z);
  }

  /** What the machine does with the next item. */
  function ReceivedItem(s: State): State
    requires s.received < |s.out| && (s.out[s.received].Answer? ==> s.sent != [])
  {
    var t := s.(toMachine := StreamBytes(s.out[s.received + 1..]), received := s.received + 1);
    match s.out[s.received]
    case Answer(r) => t.(waiting := false, results := s.results + [(s.sent[|s.sent| - 1], r)])
    case Down(m) => t.(applied := s.applied + [m])
  }

  lemma ReceiveIs(s: State)
    requires Inv(s)
    ensures s.received < |s.out| && s.out[s.received].Answer? ==> s.waiting && s.sent != []
    ensures Receive(s) == if s.received < |s.out| then ReceivedItem(s) else s
  {
    hide StreamBytes, AsItems, ItemBytes, IsMsg, ParseMsg, Recv, IsReply, ParseReply, Streams, Matched, Inv;
    assert Streams(s) by { InvMeans(s); }
    if s.received < |s.out| {
      NextForMachine(s);
      if s.out[s.received].Answer? { ReplyIsAwaited(s); }
    } else {
      NoneForMachine(s);
    }
  }

  lemma InvMeans(s: State)
    requires Inv(s)
    ensures Streams(s) && s.received <= |s.out|
  {
  }

  lemma ReceivedStreams(s: State)
    requires Inv(s) && s.received < |s.out| && (s.out[s.received].Answer? ==> s.sent != [])
    ensures Streams(ReceivedItem(s))
  {
    hide StreamBytes, AsItems, AllFit, AllMsgsFit;
  }

  /** The items received, with one more. */
  lemma ReceivedMore(s: State)
    requires s.received < |s.out|
    ensures
      var before, i := s.out[..s.received], s.out[s.received];
      && Downs(s.out[..s.received + 1]) == Downs(before) + (if i.Down? then [i.msg] else [])
      && Answers(s.out[..s.received + 1]) == Answers(before) + (if i.Answer? then [i.reply] else [])
  {
    var i := s.out[s.received];
    assert s.out[..s.received + 1] == s.out[..s.received] + [i];
    ItemsJoin(s.out[..s.received], [i]);
    ItemsOne(i);
  }

  lemma ReceivedMatched(s: State)
    requires Inv(s) && s.received < |s.out| && (s.out[s.received].Answer? ==> s.sent != [])
    ensures Matched(ReceivedItem(s))
  {
    hide StreamBytes, AsItems, Reads, Replies, Requests, Downs, Answers, AllFit, AllMsgsFit;
    ReceivedMore(s);
    if s.out[s.received].Answer? { ReplyIsAwaited(s); }
  }

  lemma ReceiveKeeps(s: State)
    requires Inv(s)
    ensures Inv(Receive(s))
  {
    hide Receive, Streams, ReceivedItem;
    InvMeans(s);
    ReceiveIs(s);
    if s.received < |s.out| {
      ReceivedStreams(s);
      ReceivedMatched(s);
    }
  }

  lemma StepKeeps(s: State, e: Event)
    requires Inv(s) && Possible(e)
    ensures Inv(Step(s, e))
  {
    hide Inv, Handle, Receive;
    match e
    case Access(m) => AccessKeeps(s, m);
    case DeviceSends(m) => DeviceSendsKeeps(s, m);
    case DeviceHandles(r) => HandleKeeps(s, r);
    case MachineReceives => ReceiveKeeps(s);
  }

  function Run(s: State, es: seq<Event>): State
    decreases |es|
  {
    if es == [] then s else Run(Step(s, es[0]), es[1..])
  }

  predicate AllPossible(es: seq<Event>) {
    forall k :: 0 <= k < |es| ==> Possible(es[k])
  }

  lemma {:induction false} RunKeeps(s: State, es: seq<Event>)
    requires Inv(s) && AllPossible(es)
    ensures Inv(Run(s, es))
    decreases |es|
  {
    hide Inv, Step;
    if es != [] {
      StepKeeps(s, es[0]);
      RunKeeps(Step(s, es[0]), es[1..]);
    }
  }

  /** Over every run: completed reads are the reads sent, in order, each with the device's
      reply to that very request, and what the machine has applied is, in order, what the
      device sent among the items received. */
  lemma ReadsAreAnswered(es: seq<Event>)
    requires AllPossible(es)
    ensures
      var s := Run(START, es);
      && s.results <= s.replied && s.received <= |s.out| && s.handled <= |s.sent|
      && Requests(s.replied) == Reads(s.sent[..s.handled])
      && s.applied == Downs(s.out[..s.received])
      && (!s.waiting ==> Requests(s.results) == Reads(s.sent))
  {
    StartInv();
    hide Step;
    RunKeeps(START, es);
    var s := Run(START, es);
    if !s.waiting {
      assert s.sent == s.sent[..s.handled] + s.sent[s.handled..];
      MsgsJoin(s.sent[..s.handled], s.sent[s.handled..]);
      assert Requests(s.results) == Requests(s.replied);
    }
  }

  /** When a read returns, it returns the reply to the request just sent, and every access
      and interrupt that the device sent before that reply has been applied, in order. */
  lemma ReadReturns(s: State)
    requires Inv(s) && s.waiting && !Receive(s).waiting
    ensures s.sent != [] && s.replied != [] && s.received < |s.out| && s.out[s.received].Answer?
    ensures
      var r := s.out[s.received].reply;
      && Receive(s).results == s.results + [(s.sent[|s.sent| - 1], r)]
      && s.replied[|s.replied| - 1] == (s.sent[|s.sent| - 1], r)
      && Receive(s).applied == Downs(s.out[..s.received])
  {
    hide StreamBytes, AsItems, Downs, Answers, Receive, Reads, Requests, Replies;
    ReceiveIs(s);
    ReplyIsAwaited(s);
  }

  /** And a reply is never taken for anything else: outside a read, none is on its way. */
  lemma NoStrayReply(s: State)
    requires Inv(s) && !s.waiting
    ensures forall k :: s.received <= k < |s.out| ==> s.out[k].Down?
  {
    hide StreamBytes, AsItems;
    assert s.out == s.out[..s.received] + s.out[s.received..];
    ItemsJoin(s.out[..s.received], s.out[s.received..]);
    assert s.sent == s.sent[..s.handled] + s.sent[s.handled..];
    MsgsJoin(s.sent[..s.handled], s.sent[s.handled..]);
    NoAnswers(s.out[s.received..]);
    assert forall k :: s.received <= k < |s.out| ==> s.out[k] == s.out[s.received..][k - s.received];
  }

  lemma {:induction false} NoAnswers(l: seq<Item>)
    ensures Answers(l) == [] ==> forall k :: 0 <= k < |l| ==> l[k].Down?
  {
    if l != [] {
      NoAnswers(l[1..]);
      assert forall k :: 1 <= k < |l| ==> l[k] == l[1..][k - 1];
    }
  }

  // ---------------------------------------------------------------------------
  // The same without bytes
  // ---------------------------------------------------------------------------

  datatype Pending = NoRead | ReadOut(msg: Msg)

  /** Messages under way in both directions, the read that the machine waits for, and what
      it has seen. */
  datatype Exchange = Exchange(
    toDevice: seq<Msg>, toMachine: seq<Item>, read: Pending, applied: seq<Msg>, results: seq<(Msg, Reply)>)

  /** What each event means for the messages. */
  function Exchanged(x: Exchange, e: Event): Exchange {
    match e
    case Access(m) =>
      if x.read.ReadOut? then x
      else x.(toDevice := x.toDevice + [m], read := if IsRead(m.op) then ReadOut(m) else NoRead)
    case DeviceSends(m) => x.(toMachine := x.toMachine + [Down(m)])
    case DeviceHandles(r) =>
      if x.toDevice == [] then x
      else
        var answer := if IsRead(x.toDevice[0].op) then [Answer(r)] else [];
        x.(toDevice := x.toDevice[1..], toMachine := x.toMachine + answer)
    case MachineReceives =>
      if x.toMachine == [] then x
      else
        match x.toMachine[0]
        case Down(m) => x.(toMachine := x.toMachine[1..], applied := x.applied + [m])
        case Answer(r) =>
          if x.read.NoRead? then x
          else x.(toMachine := x.toMachine[1..], read := NoRead, results := x.results + [(x.read.msg, r)])
  }

  function ExchangedAll(x: Exchange, es: seq<Event>): Exchange
    decreases |es|
  {
    if es == [] then x else ExchangedAll(Exchanged(x, es[0]), es[1..])
  }

  /** What the byte streams and histories amount to. */
  function View(s: State): Exchange
    requires s.handled <= |s.sent| && s.received <= |s.out| && (s.waiting ==> s.sent != [])
  {
    Exchange(s.sent[s.handled..], s.out[s.received..],
             if s.waiting then ReadOut(s.sent[|s.sent| - 1]) else NoRead, s.applied, s.results)
  }

  lemma InvViews(s: State)
    requires Inv(s)
    ensures s.handled <= |s.sent| && s.received <= |s.out| && (s.waiting ==> s.sent != [])
  {
  }

  lemma AccessViewed(s: State, m: Msg)
    requires Inv(s) && MsgFits(m)
    ensures Inv(Step(s, Access(m))) && View(Step(s, Access(m))) == Exchanged(View(s), Access(m))
  {
    hide Inv, MsgBytes;
    AccessKeeps(s, m);
    InvViews(s);
    if !s.waiting {
      assert (s.sent + [m])[s.handled..] == s.sent[s.handled..] + [m];
    }
  }

  lemma SendViewed(s: State, m: Msg)
    requires Inv(s) && MsgFits(m)
    ensures Inv(Step(s, DeviceSends(m))) && View(Step(s, DeviceSends(m))) == Exchanged(View(s), DeviceSends(m))
  {
    hide Inv, MsgBytes;
    DeviceSendsKeeps(s, m);
    InvViews(s);
    assert (s.out + [Down(m)])[s.received..] == s.out[s.received..] + [Down(m)];
  }

  lemma HandleViewed(s: State, r: Reply)
    requires Inv(s) && ReplyFits(r)
    ensures Inv(Handle(s, r)) && View(Handle(s, r)) == Exchanged(View(s), DeviceHandles(r))
  {
    hide Inv, Handle, StreamBytes, AsItems, ReplyBytes;
    HandleKeeps(s, r);
    InvViews(s);
    InvMeans(s);
    HandleIs(s, r);
    if s.handled < |s.sent| {
      assert s.sent[s.handled..][1..] == s.sent[s.handled + 1..];
      assert (s.out + [Answer(r)])[s.received..] == s.out[s.received..] + [Answer(r)];
      assert s.out[s.received..] + [] == s.out[s.received..];
    }
  }

  lemma ReceiveViewed(s: State)
    requires Inv(s)
    ensures Inv(Receive(s)) && View(Receive(s)) == Exchanged(View(s), MachineReceives)
  {
    hide Inv, Receive, StreamBytes, AsItems;
    ReceiveKeeps(s);
    InvViews(s);
    ReceiveIs(s);
    if s.received < |s.out| {
      assert s.out[s.received..][1..] == s.out[s.received + 1..];
    }
  }

  lemma StepViewed(s: State, e: Event)
    requires Inv(s) && Possible(e)
    ensures Inv(Step(s, e)) && View(Step(s, e)) == Exchanged(View(s), e)
  {
    hide Inv, Handle, Receive, View, Exchanged;
    InvViews(s);
    match e
    case Access(m) => AccessViewed(s, m);
    case DeviceSends(m) => SendViewed(s, m);
    case DeviceHandles(r) => HandleViewed(s, r);
    case MachineReceives => ReceiveViewed(s);
  }

  lemma {:induction false} RunViewed(s: State, es: seq<Event>)
    requires Inv(s) && AllPossible(es)
    ensures Inv(Run(s, es)) && View(Run(s, es)) == ExchangedAll(View(s), es)
    decreases |es|
  {
    hide Inv, Step, View, Exchanged;
    if es != [] {
      StepViewed(s, es[0]);
      RunViewed(Step(s, es[0]), es[1..]);
    }
  }

  /** Over every run the two ends exchange, through their byte streams, exactly the messages
      and replies that they would exchange directly: nothing is dropped, added or taken for
      something else. */
  lemma BytesDoNotMatter(es: seq<Event>)
    requires AllPossible(es)
    ensures
      var s, x := Run(START, es), ExchangedAll(Exchange([], [], NoRead, [], []), es);
      && s.toDevice == StreamBytes(AsItems(x.toDevice)) && s.toMachine == StreamBytes(x.toMachine)
      && s.waiting == x.read.ReadOut? && s.applied == x.applied && s.results == x.results
  {
    hide Inv, Run, ExchangedAll, StreamBytes, AsItems;
    StartInv();
    RunViewed(START, es);
    InvMeans(Run(START, es));
  }
}
