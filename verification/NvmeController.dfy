/** The controller as it is driven: timers that fire, I/O that finishes and doorbells that
    the host writes, in any order. */
module NvmeController {
  import Gray
  import opened Modular
  import opened NvmeQueues
  import opened NvmeQueueRuns
  import Rings = NvmeRings

  // ---------------------------------------------------------------------------
  // Fetching commands
  // ---------------------------------------------------------------------------

  /** A command as read from its ring: what it asks of the queues when it is an admin
      command, and how every other command is answered. */
  datatype Fetched = Fetched(cid: nat, op: AdminOp, answer: Answer)

  function Started(c: Ctrl, i: nat, cid: nat): Ctrl
    requires i in c.sqs && c.sqs[i].reqList != []
  {
    c.(sqs := c.sqs[i := Start(c.sqs[i], cid)])
  }

  /** Commands are known only by what they ask and how they are answered. */
  function Executed(c: Ctrl, i: nat, f: Fetched): (Ctrl, Answer)
    requires Good(c)
  {
    if i == 0 then Admin(c, f.op, f.answer) else (c, f.answer)
  }

  function Answered(c: Ctrl, i: nat, a: Answer): Ctrl
    requires i in c.sqs && c.sqs[i].cqid in c.cqs && c.sqs[i].outReqList != []
  {
    match a
    case Now(status) => Complete(c, i, |c.sqs[i].outReqList| - 1, status, AtOnce(status))
    case Later => c
  }

  lemma StartedKeeps(c: Ctrl, i: nat, cid: nat)
    requires Good(c) && AwakeBut(c, {i}) && i in c.sqs && c.sqs[i].reqList != []
    ensures Good(Started(c, i, cid)) && AwakeBut(Started(c, i, cid), {i})
  {
    hide Structured, CqAwake, Start, SqEmpty;
    StartStep(c, i, cid);
    var t := Started(c, i, cid);
    assert t.sqs[i].cqid == c.sqs[i].cqid by { StartedCqid(c.sqs[i], cid); }
    forall o | o in t.sqs ensures Listed(t, o) {
      assert Listed(c, o);
    }
  }

  lemma StartedCqid(q: SQueue, cid: nat)
    requires q.reqList != []
    ensures Start(q, cid).cqid == q.cqid
  {
  }

  lemma ExecutedKeeps(c: Ctrl, i: nat, f: Fetched)
    requires Good(c) && AwakeBut(c, {i}) && i in c.sqs
    ensures
      var t := Executed(c, i, f).0;
      && Good(t) && AwakeBut(t, {i}) && t.params == c.params
      && i in t.sqs && SqQuiet(c.sqs[i], t.sqs[i]) && t.sqs[i].outReqList == c.sqs[i].outReqList
  {
    hide Good, AwakeBut, Admin;
    if i == 0 {
      AdminKeeps(c, f.op, f.answer);
    }
  }

  lemma AnsweredKeeps(c: Ctrl, i: nat, a: Answer)
    requires Good(c) && AwakeBut(c, {i}) && i in c.sqs && c.sqs[i].outReqList != []
    ensures c.sqs[i].cqid in c.cqs
    ensures
      var t := Answered(c, i, a);
      && Good(t) && AwakeBut(t, {i}) && t.params == c.params && i in t.sqs && SqQuiet(c.sqs[i], t.sqs[i])
  {
    HeldQueue(c, i);
    hide Structured, AwakeBut, ListedBut, SqGood, CqGood, Complete;
    match a
    case Later =>
    case Now(status) =>
      var k := |c.sqs[i].outReqList| - 1;
      var t := Complete(c, i, k, status, AtOnce(status));
      CompleteStep(c, i, k, status, AtOnce(status));
      CompleteQuiet(c, i, k, status, AtOnce(status));
      QuietKeeps(c, t, {});
      QuietKeeps(c, t, {i});
  }

  /** One turn of the fetch loop. */
  function FetchOne(c: Ctrl, i: nat, f: Fetched): Ctrl
    requires Good(c) && AwakeBut(c, {i}) && i in c.sqs && c.sqs[i].reqList != []
  {
    StartedKeeps(c, i, f.cid);
    var c1 := Started(c, i, f.cid);
    ExecutedKeeps(c1, i, f);
    var (c2, a) := Executed(c1, i, f);
    AnsweredKeeps(c2, i, a);
    Answered(c2, i, a)
  }

  lemma FetchOneKeeps(c: Ctrl, i: nat, f: Fetched)
    requires Good(c) && AwakeBut(c, {i}) && i in c.sqs && c.sqs[i].reqList != []
    ensures
      var t := FetchOne(c, i, f);
      && Good(t) && AwakeBut(t, {i}) && t.params == c.params && i in t.sqs
      && t.sqs[i].fetched == c.sqs[i].fetched + [f.cid]
      && t.sqs[i].head == Wrap(c.sqs[i].head + 1, c.sqs[i].size) && t.sqs[i].tail == c.sqs[i].tail
      && t.sqs[i].size == c.sqs[i].size
  {
    hide Good, AwakeBut, Admin, Answered, Executed;
    StartedKeeps(c, i, f.cid);
    var c1 := Started(c, i, f.cid);
    ExecutedKeeps(c1, i, f);
    var (c2, a) := Executed(c1, i, f);
    AnsweredKeeps(c2, i, a);
  }

  /** Commands `env(n)`, `env(n + 1)`, ... are fetched until the ring is empty, no request
      is free, or the burst is used up. */
  function FetchLoop(c: Ctrl, i: nat, env: nat -> Fetched, n: nat, budget: nat): Ctrl
    requires Good(c) && AwakeBut(c, {i}) && i in c.sqs
    decreases budget
  {
    if budget == 0 || SqEmpty(c.sqs[i]) || c.sqs[i].reqList == [] then c
    else
      FetchOneKeeps(c, i, env(n));
      FetchLoop(FetchOne(c, i, env(n)), i, env, n + 1, budget - 1)
  }

  function Cids(env: nat -> Fetched, n: nat, m: nat): seq<nat>
    decreases m
  {
    if m == 0 then [] else [env(n).cid] + Cids(env, n + 1, m - 1)
  }

  /** The loop reads consecutive commands, in order, and stops early only for want of
      commands or requests. */
  lemma {:induction false} FetchLoopKeeps(c: Ctrl, i: nat, env: nat -> Fetched, n: nat, budget: nat)
    requires Good(c) && AwakeBut(c, {i}) && i in c.sqs
    ensures
      var t := FetchLoop(c, i, env, n, budget);
      && Good(t) && AwakeBut(t, {i}) && t.params == c.params && i in t.sqs
      && |c.sqs[i].fetched| <= |t.sqs[i].fetched| <= |c.sqs[i].fetched| + budget
      && t.sqs[i].fetched == c.sqs[i].fetched + Cids(env, n, |t.sqs[i].fetched| - |c.sqs[i].fetched|)
      && (|t.sqs[i].fetched| < |c.sqs[i].fetched| + budget ==> SqEmpty(t.sqs[i]) || t.sqs[i].reqList == [])
    decreases budget
  {
    hide Good, AwakeBut, FetchOne;
    if budget == 0 || SqEmpty(c.sqs[i]) || c.sqs[i].reqList == [] {
    } else {
      FetchOneKeeps(c, i, env(n));
      FetchLoopKeeps(FetchOne(c, i, env(n)), i, env, n + 1, budget - 1);
    }
  }

  /** The queue's timer has fired. */
  function SqProcess(c: Ctrl, i: nat, env: nat -> Fetched): Ctrl
    requires Inv(c) && i in c.sqs
  {
    SetTimerKeeps(c, i, false);
    var t := FetchLoop(SetTimer(c, i, false), i, env, 0, c.sqs[i].arbBurst);
    FetchLoopKeeps(SetTimer(c, i, false), i, env, 0, c.sqs[i].arbBurst);
    if SqEmpty(t.sqs[i]) then t else SetTimer(t, i, true)
  }

  /** A queue whose timer fires with commands to fetch and a request free makes progress
      exactly when its burst is not zero; otherwise only its timer is set again. */
  lemma TimerFetches(c: Ctrl, i: nat, env: nat -> Fetched)
    requires Inv(c) && i in c.sqs && !SqEmpty(c.sqs[i]) && c.sqs[i].reqList != []
    ensures i in SqProcess(c, i, env).sqs
    ensures |c.sqs[i].fetched| < |SqProcess(c, i, env).sqs[i].fetched| <==> c.sqs[i].arbBurst > 0
    ensures c.sqs[i].arbBurst == 0 ==> SqProcess(c, i, env) == SetTimer(c, i, true)
  {
    hide Good, AwakeBut, FetchOne, Wrap;
    AwakeLess(c, i);
    SetTimerKeeps(c, i, false);
    var c1, n := SetTimer(c, i, false), c.sqs[i].arbBurst;
    AwakeLess(c1, i);
    FetchLoopKeeps(c1, i, env, 0, n);
    if n > 0 {
      FetchOneKeeps(c1, i, env(0));
      FetchLoopKeeps(FetchOne(c1, i, env(0)), i, env, 1, n - 1);
    }
  }

  function SetTimer(c: Ctrl, i: nat, on: bool): Ctrl
    requires i in c.sqs
  {
    c.(sqs := c.sqs[i := c.sqs[i].(timer := on)])
  }

  /** Only timers and the registers that the host writes have changed. */
  predicate Retuned(c: Ctrl, t: Ctrl) {
    && t.params == c.params && t.sqs.Keys == c.sqs.Keys && t.cqs.Keys == c.cqs.Keys
    && (forall i :: i in c.sqs ==> SqRetuned(c.sqs[i], t.sqs[i]))
    && (forall j :: j in c.cqs ==> CqRetuned(c.cqs[j], t.cqs[j]))
  }

  predicate SqRetuned(q: SQueue, t: SQueue) {
    t == q.(tail := t.tail, timer := t.timer) && (t.tail == q.tail || t.tail < q.size)
  }

  predicate CqRetuned(q: CQueue, t: CQueue) {
    t == q.(head := t.head, timer := t.timer) && (t.head == q.head || t.head < q.size)
  }

  lemma SqRetunedGood(q: SQueue, t: SQueue, i: nat, waiting: seq<Request>)
    requires SqRetuned(q, t) && SqGood(q, i, waiting)
    ensures SqGood(t, i, waiting)
  {
    hide Indices, Serials, Upto, Carry;
  }

  lemma CqRetunedGood(c: Ctrl, t: Ctrl, j: nat)
    requires Retuned(c, t) && j in c.cqs && CqGood(c, j)
    ensures CqGood(t, j)
  {
    hide Distinct;
    assert CqRetuned(c.cqs[j], t.cqs[j]);
    forall a | 0 <= a < |t.cqs[j].reqList| ensures Names(t, t.cqs[j].reqList[a].sqid, j) {
      assert Names(c, c.cqs[j].reqList[a].sqid, j);
      assert SqRetuned(c.sqs[c.cqs[j].reqList[a].sqid], t.sqs[c.cqs[j].reqList[a].sqid]);
    }
    forall a | 0 <= a < |t.cqs[j].sqList| ensures Names(t, t.cqs[j].sqList[a], j) {
      assert Names(c, c.cqs[j].sqList[a], j);
      assert SqRetuned(c.sqs[c.cqs[j].sqList[a]], t.sqs[c.cqs[j].sqList[a]]);
    }
  }

  lemma RetunedKeeps(c: Ctrl, t: Ctrl)
    requires Good(c) && Retuned(c, t)
    ensures Good(t)
  {
    hide CqGood, SqGood;
    forall j | j in t.cqs ensures CqGood(t, j) {
      CqRetunedGood(c, t, j);
    }
    forall i | i in t.sqs ensures SqHeld(t, i) && Listed(t, i) {
      assert SqHeld(c, i) && Listed(c, i);
      assert CqRetuned(c.cqs[c.sqs[i].cqid], t.cqs[c.sqs[i].cqid]);
      SqRetunedGood(c.sqs[i], t.sqs[i], i, Of(c.cqs[c.sqs[i].cqid].reqList, i));
    }
  }

  lemma SetTimerKeeps(c: Ctrl, i: nat, on: bool)
    requires Good(c) && AwakeBut(c, {i}) && i in c.sqs
    ensures Good(SetTimer(c, i, on))
    ensures AwakeBut(SetTimer(c, i, on), if on || SqEmpty(c.sqs[i]) then {} else {i})
  {
    hide CqAwake, Good;
    RetunedKeeps(c, SetTimer(c, i, on));
  }

  lemma AwakeLess(c: Ctrl, i: nat)
    requires AwakeBut(c, {}) || AwakeBut(c, {i})
    ensures AwakeBut(c, {i})
  {
  }

  /** What holds between two events. */
  ghost predicate Inv(c: Ctrl) {
    Good(c) && AwakeBut(c, {})
  }

  // ---------------------------------------------------------------------------
  // Doorbells
  // ---------------------------------------------------------------------------

  datatype Doorbell = TailOf(sqid: nat) | HeadOf(cqid: nat) | Misplaced

  /** Which doorbell an address above the controller registers means. */
  function Decode(addr: nat, unit: PageSize): Doorbell
    requires addr >= 0x1000
  {
    var offset := addr - 0x1000;
    if Wrap(addr, unit) != 0 then Misplaced
    else if Turns(offset, unit) % 2 == 1 then HeadOf(if offset >= unit then Turns(offset - unit, 2 * unit) else 0)
    else TailOf(Turns(offset, 2 * unit))
  }

  lemma {:induction false} Multiples(k: nat, base: nat, unit: PageSize)
    ensures Wrap(base + Times(k, unit), unit) == Wrap(base, unit)
    ensures Turns(Times(k, unit), unit) == k && Turns(Times(k, unit), 2 * unit) == k / 2
  {
    if k >= 1 {
      Multiples(k - 1, base, unit);
      if k >= 2 {
        Multiples(k - 2, base, unit);
        assert Times(k, unit) - 2 * unit == Times(k - 2, unit);
      }
    }
  }

  /** Section 3.1.10 of NVM Express 1.1 places the doorbells of queue y at multiples 2y and
      2y + 1 of the distance; they are understood exactly when the distance divides the
      start of the doorbell area. */
  lemma DoorbellsDecode(y: nat, unit: PageSize)
    ensures Decode(0x1000 + (2 * y) * unit, unit) == TailOf(y) <==> 0x1000 % unit == 0
    ensures Decode(0x1000 + (2 * y + 1) * unit, unit) == HeadOf(y) <==> 0x1000 % unit == 0
  {
    hide Decode, Wrap, Turns, Times;
    TimesIsProduct(2 * y, unit);
    TimesIsProduct(2 * y + 1, unit);
    WrapIsRemainder(0x1000, unit);
    TimesDecode(y, unit);
  }

  lemma TimesDecode(y: nat, unit: PageSize)
    ensures Decode(0x1000 + Times(2 * y, unit), unit) == TailOf(y) <==> Wrap(0x1000, unit) == 0
    ensures Decode(0x1000 + Times(2 * y + 1, unit), unit) == HeadOf(y) <==> Wrap(0x1000, unit) == 0
  {
    hide Wrap, Turns;
    Multiples(2 * y, 0x1000, unit);
    Multiples(2 * y + 1, 0x1000, unit);
  }

  lemma {:induction false} WrapDoubles(v: nat, p: nat)
    requires p >= 1
    ensures Wrap(2 * v, 2 * p) == 2 * Wrap(v, p)
  {
    if v >= p {
      WrapDoubles(v - p, p);
      assert 2 * v - 2 * p == 2 * (v - p);
    }
  }

  lemma {:induction false} WrapOne(v: nat)
    ensures Wrap(v, 1) == 0
  {
  }

  lemma {:induction false} PowersDivide(n: nat, m: nat)
    ensures Wrap(Gray.Pow2(n), Gray.Pow2(m)) == 0 <==> m <= n
  {
    if m == 0 {
      WrapOne(Gray.Pow2(n));
    } else if n == 0 {
    } else {
      PowersDivide(n - 1, m - 1);
      WrapDoubles(Gray.Pow2(n - 1), Gray.Pow2(m - 1));
    }
  }

  /** Strides 11 and 12, which the controller accepts, make every doorbell unusable. */
  lemma StridesThatDivide(stride: nat)
    requires stride <= 12
    ensures 0x1000 % (4 * Gray.Pow2(stride)) == 0 <==> stride <= 10
  {
    hide Wrap;
    WrapIsRemainder(0x1000, 4 * Gray.Pow2(stride));
    PowersDivide(12, stride + 2);
    assert Gray.Pow2(4) == 16 && Gray.Pow2(8) == 256 && Gray.Pow2(12) == 0x1000;
    assert Gray.Pow2(stride + 2) == 4 * Gray.Pow2(stride);
  }

  /** The smallest power of two above `x`, from `p` on. */
  function PowerAbove(x: nat, p: nat): (r: nat)
    requires p >= 1
    ensures r > x
    decreases if x < p then 0 else x - p + 1
  {
    if x < p then p else PowerAbove(x, 2 * p)
  }

  /** The size of the register window, which does not depend on the stride. */
  function RegisterWindow(numQueues: nat): nat {
    PowerAbove(0x1004 + 2 * (numQueues + 1) * 4, 1)
  }

  /** A doorbell of four bytes that lies inside the window. */
  predicate Reaches(addr: nat, numQueues: nat) { addr + 4 <= RegisterWindow(numQueues) }

  function Unit(stride: nat): (u: PageSize) { 4 * Gray.Pow2(stride) }

  /** Both doorbells of queue `y` arrive at the controller and are understood. */
  predicate Usable(y: nat, stride: nat, numQueues: nat) {
    var unit := Unit(stride);
    && Reaches(0x1000 + (2 * y) * unit, numQueues) && Reaches(0x1000 + (2 * y + 1) * unit, numQueues)
    && Decode(0x1000 + (2 * y) * unit, unit) == TailOf(y) && Decode(0x1000 + (2 * y + 1) * unit, unit) == HeadOf(y)
  }

  lemma Widens(a: nat, b: nat, unit: nat)
    requires a <= b
    ensures a * unit <= b * unit
  {
  }

  lemma UsableExactly(y: nat, stride: nat, numQueues: nat)
    requires stride <= 12
    ensures Usable(y, stride, numQueues)
       <==> stride <= 10 && Reaches(0x1000 + (2 * y + 1) * Unit(stride), numQueues)
  {
    hide Decode, RegisterWindow, Gray.Pow2;
    DoorbellsDecode(y, Unit(stride));
    StridesThatDivide(stride);
    Widens(2 * y, 2 * y + 1, Unit(stride));
  }

  /** The doorbells of all queues can be used exactly when the stride divides the start of
      the doorbell area and the last of them lies inside the window. */
  lemma AllUsableExactly(stride: nat, numQueues: nat)
    requires stride <= 12 && numQueues >= 1
    ensures (forall y :: 0 <= y < numQueues ==> Usable(y, stride, numQueues))
       <==> stride <= 10 && Reaches(0x1000 + (2 * numQueues - 1) * Unit(stride), numQueues)
  {
    hide Usable, Unit, RegisterWindow;
    UsableExactly(numQueues - 1, stride, numQueues);
    forall y | 0 <= y < numQueues && stride <= 10 && Reaches(0x1000 + (2 * numQueues - 1) * Unit(stride), numQueues)
      ensures Usable(y, stride, numQueues)
    {
      UsableExactly(y, stride, numQueues);
      Widens(2 * y + 1, 2 * numQueues - 1, Unit(stride));
    }
  }

  /** Without a stride every number of queues fits; the default of 64 queues fits for
      strides up to 3. */
  lemma StridesThatFit(stride: nat, numQueues: nat)
    requires stride <= 12 && numQueues >= 1
    ensures forall y :: 0 <= y < numQueues ==> Usable(y, 0, numQueues)
    ensures (forall y :: 0 <= y < 64 ==> Usable(y, stride, 64)) <==> stride <= 3
  {
    hide Usable, PowerAbove;
    AllUsableExactly(0, numQueues);
    AllUsableExactly(stride, 64);
    assert RegisterWindow(64) == 0x2000 by { WindowOf64(); }
    StrideGrows(stride);
  }

  /** The window is the smallest power of two that holds the registers and two doorbells of
      four bytes for every queue and one more. */
  lemma WindowExact(numQueues: nat)
    ensures exists k :: Gray.Pow2(k) == RegisterWindow(numQueues)
    ensures 0x100C + 8 * numQueues < RegisterWindow(numQueues) <= 2 * (0x100C + 8 * numQueues)
  {
    assert Gray.Pow2(0) == 1;
    AboveIsPower(0x100C + 8 * numQueues, 0);
  }

  lemma {:induction false} AboveIsPower(x: nat, k: nat)
    requires x >= 1 && (Gray.Pow2(k) == 1 || Gray.Pow2(k) <= 2 * x)
    ensures exists n :: Gray.Pow2(n) == PowerAbove(x, Gray.Pow2(k))
    ensures PowerAbove(x, Gray.Pow2(k)) <= 2 * x
    decreases if x < Gray.Pow2(k) then 0 else x - Gray.Pow2(k) + 1
  {
    if x >= Gray.Pow2(k) {
      assert Gray.Pow2(k + 1) == 2 * Gray.Pow2(k);
      AboveIsPower(x, k + 1);
    }
  }

  lemma WindowOf64()
    ensures RegisterWindow(64) == 0x2000
  {
    assert PowerAbove(0x120C, 1) == PowerAbove(0x120C, 0x10);
    assert PowerAbove(0x120C, 0x10) == PowerAbove(0x120C, 0x100);
    assert PowerAbove(0x120C, 0x100) == PowerAbove(0x120C, 0x1000);
    assert PowerAbove(0x120C, 0x1000) == PowerAbove(0x120C, 0x2000);
  }

  lemma {:induction false} StrideGrows(stride: nat)
    ensures Unit(0) == 4 && Unit(3) == 32
    ensures if stride <= 3 then Unit(stride) <= 32 else Unit(stride) >= 64
  {
    if stride > 4 { StrideGrows(stride - 1); }
  }

  /** Every queue in a list is scheduled. */
  function ArmAll(sqs: map<nat, SQueue>, l: seq<nat>): map<nat, SQueue> {
    map i | i in sqs :: if i in l then sqs[i].(timer := true) else sqs[i]
  }

  /** A completion head doorbell.  Releasing entries of a full ring wakes the queue and
      every submission queue that posts to it. */
  function RingHead(c: Ctrl, j: nat, value: int): Ctrl {
    var newHead := value % 0x10000;
    if !ValidCq(c, j) || newHead >= c.cqs[j].size then c
    else
      var cq := c.cqs[j];
      var full := CqFull(cq);
      c.(sqs := if full then ArmAll(c.sqs, cq.sqList) else c.sqs,
         cqs := c.cqs[j := cq.(head := newHead, timer := full || cq.timer)])
  }

  /** A submission tail doorbell. */
  function RingTail(c: Ctrl, i: nat, value: int): Ctrl {
    var newTail := value % 0x10000;
    if !ValidSq(c, i) || newTail >= c.sqs[i].size then c
    else c.(sqs := c.sqs[i := c.sqs[i].(tail := newTail, timer := true)])
  }

  function WriteDoorbell(c: Ctrl, addr: nat, value: int): Ctrl
    requires addr >= 0x1000
  {
    match Decode(addr, c.params.doorbell)
    case TailOf(i) => RingTail(c, i, value)
    case HeadOf(j) => RingHead(c, j, value)
    case Misplaced => c
  }

  /** A tail doorbell is taken exactly when its queue exists and the value, of sixteen bits,
      lies inside the ring; then the queue is scheduled. */
  lemma TailTakenExactly(c: Ctrl, i: nat, value: int)
    ensures
      var t := RingTail(c, i, value);
      if i in c.sqs && i < c.params.numQueues && value % 0x1_0000 < c.sqs[i].size then
        && t.sqs.Keys == c.sqs.Keys && t.cqs == c.cqs && t.sqs[i] == c.sqs[i].(tail := value % 0x1_0000, timer := true)
        && forall o :: o in c.sqs && o != i ==> t.sqs[o] == c.sqs[o]
      else t == c
  {
  }

  /** The same for a head doorbell.  If the ring was full, so that its next entry was the one
      to be read, its queue and every submission queue listed by it are scheduled. */
  lemma HeadTakenExactly(c: Ctrl, j: nat, value: int)
    ensures
      var t := RingHead(c, j, value);
      if j in c.cqs && j < c.params.numQueues && value % 0x1_0000 < c.cqs[j].size then
        var q := c.cqs[j];
        var full := (q.tail + 1) % q.size == q.head;
        && t.sqs.Keys == c.sqs.Keys && t.cqs.Keys == c.cqs.Keys
        && t.cqs[j] == q.(head := value % 0x1_0000, timer := full || q.timer)
        && (forall o :: o in c.cqs && o != j ==> t.cqs[o] == c.cqs[o])
        && (forall i :: i in c.sqs ==> t.sqs[i] == c.sqs[i].(timer := (full && i in q.sqList) || c.sqs[i].timer))
      else t == c
  {
    if j in c.cqs { WrapIsRemainder(c.cqs[j].tail + 1, c.cqs[j].size); }
  }

  lemma RingTailKeeps(c: Ctrl, i: nat, value: int)
    requires Inv(c)
    ensures Inv(RingTail(c, i, value))
  {
    hide Good, CqAwake;
    if i in c.sqs {
      RetunedKeeps(c, RingTail(c, i, value));
    }
  }

  lemma RingHeadKeeps(c: Ctrl, j: nat, value: int)
    requires Inv(c)
    ensures Inv(RingHead(c, j, value))
  {
    hide Good, Wrap;
    if j in c.cqs {
      RetunedKeeps(c, RingHead(c, j, value));
    }
  }

  // ---------------------------------------------------------------------------
  // Runs
  // ---------------------------------------------------------------------------

  datatype Event =
    | SqTimer(sqid: nat, env: nat -> Fetched)       // a submission queue's timer fires
    | CqTimer(cqid: nat)                            // a completion queue's timer fires
    | IoDone(sqid: nat, k: nat, ok: bool)           // the I/O of an outstanding request ends
    | DoorbellWrite(addr: nat, value: int)          // the host writes a doorbell

  function ClearCqTimer(c: Ctrl, j: nat): Ctrl
    requires j in c.cqs
  {
    c.(cqs := c.cqs[j := c.cqs[j].(timer := false)])
  }

  /** A timer that is not armed does not fire; below 0x1000 are the controller registers. */
  function Step(c: Ctrl, e: Event): Ctrl
    requires Inv(c)
  {
    match e
    case SqTimer(i, env) => if i in c.sqs && c.sqs[i].timer then SqProcess(c, i, env) else c
    case CqTimer(j) =>
      if j in c.cqs && c.cqs[j].timer then
        ClearCqTimerKeeps(c, j);
        PostAll(ClearCqTimer(c, j), j)
      else c
    case IoDone(i, k, ok) =>
      if i in c.sqs && k < |c.sqs[i].outReqList| then
        HeldQueue(c, i);
        Complete(c, i, k, if ok then SUCCESS else INTERNAL_DEV_ERROR, IoEnded(ok))
      else c
    case DoorbellWrite(addr, value) => if addr >= 0x1000 then WriteDoorbell(c, addr, value) else c
  }

  lemma ClearCqTimerKeeps(c: Ctrl, j: nat)
    requires Good(c) && j in c.cqs
    ensures Good(ClearCqTimer(c, j)) && Postable(ClearCqTimer(c, j), j)
  {
    hide Good;
    RetunedKeeps(c, ClearCqTimer(c, j));
    assert Structured(ClearCqTimer(c, j)) by { GoodStructured(ClearCqTimer(c, j)); }
    StructuredPostable(ClearCqTimer(c, j), j);
  }

  lemma GoodStructured(c: Ctrl)
    requires Good(c)
    ensures Structured(c)
  {
  }

  lemma AwakeAfter(c: Ctrl, t: Ctrl, j: nat)
    requires Quiet(c, t) && j in c.cqs && CqAwake(t.cqs[j])
    requires forall l :: l in c.cqs && l != j ==> CqAwake(c.cqs[l])
    requires forall i :: i in c.sqs ==> SqAwake(c.sqs[i])
    ensures AwakeBut(t, {})
  {
    hide CqAwake;
    forall l | l in t.cqs ensures CqAwake(t.cqs[l]) {
      assert l != j ==> CqQuiet(c.cqs[l], t.cqs[l]);
    }
    forall i | i in t.sqs ensures SqAwake(t.sqs[i]) {
      assert SqQuiet(c.sqs[i], t.sqs[i]);
    }
  }

  lemma PostWakes(c: Ctrl, j: nat)
    requires Good(c) && j in c.cqs
    requires forall l :: l in c.cqs && l != j ==> CqAwake(c.cqs[l])
    requires forall i :: i in c.sqs ==> SqAwake(c.sqs[i])
    ensures Postable(c, j) && Inv(PostAll(c, j))
  {
    hide Structured, CqAwake, SqAwake, PostAll, ListedBut, Quiet, AwakeBut, OnlyPosted;
    PostAllKeeps(c, j);
    PostAllQuiet(c, j);
    QuietKeeps(c, PostAll(c, j), {});
    AwakeAfter(c, PostAll(c, j), j);
  }

  lemma CqTimerStep(c: Ctrl, j: nat)
    requires Inv(c) && j in c.cqs
    ensures Postable(ClearCqTimer(c, j), j) && Inv(PostAll(ClearCqTimer(c, j), j))
  {
    hide Good, CqAwake, SqAwake, PostAll;
    ClearCqTimerKeeps(c, j);
    PostWakes(ClearCqTimer(c, j), j);
  }

  lemma SqTimerStep(c: Ctrl, i: nat, env: nat -> Fetched)
    requires Inv(c) && i in c.sqs
    ensures Inv(SqProcess(c, i, env)) && SqProcess(c, i, env).params == c.params
  {
    hide Good, CqAwake, FetchLoop;
    SetTimerKeeps(c, i, false);
    var c1 := SetTimer(c, i, false);
    FetchLoopKeeps(c1, i, env, 0, c.sqs[i].arbBurst);
    var t := FetchLoop(c1, i, env, 0, c.sqs[i].arbBurst);
    SetTimerKeeps(t, i, true);
  }

  lemma IoDoneStep(c: Ctrl, i: nat, k: nat, status: nat, o: Outcome)
    requires Inv(c) && i in c.sqs && k < |c.sqs[i].outReqList| && status == StatusOf(o)
    ensures c.sqs[i].cqid in c.cqs && Inv(Complete(c, i, k, status, o))
  {
    HeldQueue(c, i);
    hide Structured, CqAwake, ListedBut, SqGood, CqGood, Complete, Quiet, AwakeBut;
    CompleteStep(c, i, k, status, o);
    CompleteQuiet(c, i, k, status, o);
    QuietKeeps(c, Complete(c, i, k, status, o), {});
  }

  lemma StepKeeps(c: Ctrl, e: Event)
    requires Inv(c)
    ensures Inv(Step(c, e)) && Step(c, e).params == c.params
  {
    hide Good, AwakeBut, SqProcess, PostAll;
    match e
    case SqTimer(i, env) =>
      if i in c.sqs { SqTimerStep(c, i, env); }
    case CqTimer(j) =>
      if j in c.cqs {
        CqTimerStep(c, j);
        PostAllParams(ClearCqTimer(c, j), j);
      }
    case IoDone(i, k, ok) =>
      if i in c.sqs && k < |c.sqs[i].outReqList| {
        IoDoneStep(c, i, k, if ok then SUCCESS else INTERNAL_DEV_ERROR, IoEnded(ok));
      }
    case DoorbellWrite(addr, value) =>
      if addr >= 0x1000 {
        match Decode(addr, c.params.doorbell)
        case TailOf(i) => RingTailKeeps(c, i, value);
        case HeadOf(j) => RingHeadKeeps(c, j, value);
        case Misplaced =>
      }
  }

  lemma {:induction false} PostAllParams(c: Ctrl, j: nat)
    requires Postable(c, j)
    ensures PostAll(c, j).params == c.params && PostAll(c, j).broken == c.broken
    decreases if j in c.cqs then |c.cqs[j].reqList| else 0
  {
    if c.cqs[j].reqList != [] && !CqFull(c.cqs[j]) {
      PostAllParams(PostOne(c, j), j);
    }
  }

  function Run(c: Ctrl, es: seq<Event>): Ctrl
    requires Inv(c)
    decreases |es|
  {
    if es == [] then c
    else
      StepKeeps(c, es[0]);
      Run(Step(c, es[0]), es[1..])
  }

  function Disabled(p: Params): Ctrl {
    Ctrl(p, map[], map[], false)
  }

  /** The controller as it is enabled: the two admin queues. */
  function StartUp(p: Params, acqs: nat, asqs: nat, burst: nat): Ctrl
    requires acqs >= 1 && asqs >= 1
  {
    AddSq(AddCq(Disabled(p), 0, acqs + 1), 0, 0, asqs + 1, burst)
  }

  lemma AdminCqGood(p: Params, size: RingSize)
    ensures Good(AddCq(Disabled(p), 0, size)) && 0 in AddCq(Disabled(p), 0, size).cqs
        && 0 !in AddCq(Disabled(p), 0, size).sqs
  {
    hide InitCq;
    assert Good(Disabled(p));
    AddCqKeeps(Disabled(p), 0, size);
  }

  lemma StartUpInv(p: Params, acqs: nat, asqs: nat, burst: nat)
    requires acqs >= 1 && asqs >= 1
    ensures Inv(StartUp(p, acqs, asqs, burst))
  {
    hide AddSq, AddCq, AwakeBut, Good, Disabled;
    AdminCqGood(p, acqs + 1);
    StartUpAwake(p, acqs, asqs, burst);
    AddSqKeeps(AddCq(Disabled(p), 0, acqs + 1), 0, 0, asqs + 1, burst);
  }

  lemma StartUpAwake(p: Params, acqs: nat, asqs: nat, burst: nat)
    requires acqs >= 1 && asqs >= 1
    ensures AwakeBut(StartUp(p, acqs, asqs, burst), {})
  {
    hide CqFull, FreeRequests;
  }

  lemma {:induction false} RunKeeps(c: Ctrl, es: seq<Event>)
    requires Inv(c)
    ensures Inv(Run(c, es))
    decreases |es|
  {
    if es != [] {
      StepKeeps(c, es[0]);
      RunKeeps(Step(c, es[0]), es[1..]);
    }
  }

  // ---------------------------------------------------------------------------
  // What every run guarantees
  // ---------------------------------------------------------------------------

  /** The requests of queue `i` that wait in its completion queue. */
  function Waiting(c: Ctrl, i: nat): seq<Request>
    requires i in c.sqs && c.sqs[i].cqid in c.cqs
  {
    Of(c.cqs[c.sqs[i].cqid].reqList, i)
  }

  /** Element `x` of the request array of queue `i` is in one of the three lists, once. */
  ghost predicate InOnePlace(c: Ctrl, i: nat, x: nat)
    requires i in c.sqs && c.sqs[i].cqid in c.cqs
  {
    var q := c.sqs[i];
    multiset(Indices(q.reqList))[x] + multiset(Indices(q.outReqList))[x] + multiset(Indices(Waiting(c, i)))[x] == 1
  }

  /** The `k`-th command fetched by queue `i` is outstanding, or waits to be posted, or has
      been answered, once; and then with its own identifier. */
  ghost predicate AnsweredOnce(c: Ctrl, i: nat, k: nat)
    requires i in c.sqs && c.sqs[i].cqid in c.cqs && k < |c.sqs[i].fetched|
  {
    var q := c.sqs[i];
    && multiset(Serials(q.outReqList))[k] + multiset(Serials(Waiting(c, i)))[k] + multiset(Serials(q.answered))[k] == 1
    && (forall a :: 0 <= a < |q.answered| && q.answered[a].serial == k ==> q.answered[a].cid == q.fetched[k])
  }

  lemma {:induction false} CountUpto(n: nat, x: nat)
    ensures multiset(Upto(n))[x] == if x < n then 1 else 0
  {
    if n == 0 {
      assert Upto(0) == [];
    } else {
      CountUpto(n - 1, x);
      UptoGrows(n - 1);
    }
  }

  lemma RequestInOnePlace(c: Ctrl, i: nat, x: nat)
    requires Inv(c) && i in c.sqs
    ensures c.sqs[i].cqid in c.cqs
    ensures x < c.sqs[i].size ==> InOnePlace(c, i, x)
  {
    HeldQueue(c, i);
    CountUpto(c.sqs[i].size, x);
  }

  lemma CommandAnsweredOnce(c: Ctrl, i: nat, k: nat)
    requires Inv(c) && i in c.sqs && k < |c.sqs[i].fetched|
    ensures c.sqs[i].cqid in c.cqs && AnsweredOnce(c, i, k)
  {
    HeldQueue(c, i);
    CountUpto(|c.sqs[i].fetched|, k);
  }

  /** The `k`-th command has been answered. */
  predicate HasAnswer(q: SQueue, k: nat) {
    exists a :: 0 <= a < |q.answered| && q.answered[a].serial == k
  }

  /** Once nothing of a queue is outstanding or waiting, there are as many answers as
      commands, and every command has one. */
  lemma DrainedMeansAnswered(c: Ctrl, i: nat)
    requires Inv(c) && i in c.sqs && c.sqs[i].outReqList == []
    ensures c.sqs[i].cqid in c.cqs
    ensures Waiting(c, i) == [] ==>
      |c.sqs[i].answered| == |c.sqs[i].fetched| && forall k :: 0 <= k < |c.sqs[i].fetched| ==> HasAnswer(c.sqs[i], k)
  {
    HeldQueue(c, i);
    var q := c.sqs[i];
    if Waiting(c, i) == [] {
      assert Serials(q.outReqList) == [] && Serials(Waiting(c, i)) == [];
      assert multiset(Serials(q.answered)) == multiset(Upto(|q.fetched|));
      assert |multiset(Serials(q.answered))| == |multiset(Upto(|q.fetched|))|;
      forall k | 0 <= k < |q.fetched| ensures HasAnswer(q, k) {
        CountUpto(|q.fetched|, k);
        assert k in multiset(Serials(q.answered));
        var a :| 0 <= a < |Serials(q.answered)| && Serials(q.answered)[a] == k;
      }
    }
  }

  /** Live queues refer to each other consistently, and waiting work has a timer. */
  ghost predicate Sound(c: Ctrl, i: nat)
    requires i in c.sqs
  {
    var q := c.sqs[i];
    && q.cqid in c.cqs
    && (exists a :: 0 <= a < |c.cqs[q.cqid].sqList| && c.cqs[q.cqid].sqList[a] == i)
    && Distinct(c.cqs[q.cqid].sqList)
    && (!SqEmpty(q) ==> q.timer)
    && (forall x :: 0 <= x < q.size ==> InOnePlace(c, i, x))
    && (forall k :: 0 <= k < |q.fetched| ==> AnsweredOnce(c, i, k))
    && Tell(Waiting(c, i), q.outcomes) && Tell(q.answered, q.outcomes)
  }

  ghost predicate SoundCq(c: Ctrl, j: nat)
    requires j in c.cqs
  {
    var cq := c.cqs[j];
    && (cq.reqList != [] ==> cq.timer || CqFull(cq))
    && (forall a :: 0 <= a < |cq.sqList| ==> Names(c, cq.sqList[a], j))
    && (forall a :: 0 <= a < |cq.reqList| ==> Names(c, cq.reqList[a].sqid, j))
  }

  /** What waits or was answered has the status of what became of its command. */
  lemma AnswersTell(c: Ctrl, i: nat)
    requires Inv(c) && i in c.sqs
    ensures c.sqs[i].cqid in c.cqs
    ensures Tell(Waiting(c, i), c.sqs[i].outcomes) && Tell(c.sqs[i].answered, c.sqs[i].outcomes)
  {
    HeldQueue(c, i);
  }

  lemma InvSound(c: Ctrl)
    requires Inv(c)
    ensures forall i :: i in c.sqs ==> Sound(c, i)
    ensures forall j :: j in c.cqs ==> SoundCq(c, j)
  {
    hide InOnePlace, AnsweredOnce, Distinct, SqGood, Tell;
    forall i | i in c.sqs ensures Sound(c, i) {
      HeldQueue(c, i);
      assert Listed(c, i) && SqAwake(c.sqs[i]);
      forall x | 0 <= x < c.sqs[i].size ensures InOnePlace(c, i, x) { RequestInOnePlace(c, i, x); }
      forall k | 0 <= k < |c.sqs[i].fetched| ensures AnsweredOnce(c, i, k) { CommandAnsweredOnce(c, i, k); }
      AnswersTell(c, i);
    }
    forall j | j in c.cqs ensures SoundCq(c, j) {
      assert CqGood(c, j) && CqAwake(c.cqs[j]);
    }
  }

  ghost predicate AllSound(c: Ctrl) {
    (forall i :: i in c.sqs ==> Sound(c, i)) && (forall j :: j in c.cqs ==> SoundCq(c, j))
  }

  // ---------------------------------------------------------------------------
  // Runs that stay within the arrays
  // ---------------------------------------------------------------------------

  /** Every creation command of a run has an identifier and a size that fit. */
  ghost predicate AllFit(p: Params, es: seq<Event>) {
    forall k :: 0 <= k < |es| ==> EventFits(p, es[k])
  }

  ghost predicate EventFits(p: Params, e: Event) {
    e.SqTimer? ==> forall n :: OpFits(p, e.env(n).op)
  }

  lemma FetchOneUnbroken(c: Ctrl, i: nat, f: Fetched)
    requires Good(c) && AwakeBut(c, {i}) && i in c.sqs && c.sqs[i].reqList != []
    ensures OpFits(c.params, f.op) ==> FetchOne(c, i, f).broken == c.broken
    ensures c.broken ==> FetchOne(c, i, f).broken
  {
    hide Good, AwakeBut, Admin, OpFits;
    StartedKeeps(c, i, f.cid);
    var c1 := Started(c, i, f.cid);
    ExecutedKeeps(c1, i, f);
    if i == 0 { AdminKeeps(c1, f.op, f.answer); }
    var (c2, a) := Executed(c1, i, f);
    AnsweredKeeps(c2, i, a);
  }

  lemma {:induction false} FetchLoopUnbroken(c: Ctrl, i: nat, env: nat -> Fetched, n: nat, budget: nat)
    requires Good(c) && AwakeBut(c, {i}) && i in c.sqs
    ensures (forall m :: OpFits(c.params, env(m).op)) ==> FetchLoop(c, i, env, n, budget).broken == c.broken
    ensures c.broken ==> FetchLoop(c, i, env, n, budget).broken
    decreases budget
  {
    hide Good, AwakeBut, FetchOne, OpFits;
    if !(budget == 0 || SqEmpty(c.sqs[i]) || c.sqs[i].reqList == []) {
      FetchOneKeeps(c, i, env(n));
      FetchOneUnbroken(c, i, env(n));
      FetchLoopUnbroken(FetchOne(c, i, env(n)), i, env, n + 1, budget - 1);
    }
  }

  lemma StepUnbroken(c: Ctrl, e: Event)
    requires Inv(c)
    ensures EventFits(c.params, e) ==> Step(c, e).broken == c.broken
    ensures c.broken ==> Step(c, e).broken
  {
    hide Good, CqAwake, FetchLoop, PostAll, OpFits;
    match e
    case SqTimer(i, env) =>
      if i in c.sqs {
        SetTimerKeeps(c, i, false);
        FetchLoopKeeps(SetTimer(c, i, false), i, env, 0, c.sqs[i].arbBurst);
        FetchLoopUnbroken(SetTimer(c, i, false), i, env, 0, c.sqs[i].arbBurst);
      }
    case CqTimer(j) =>
      if j in c.cqs {
        ClearCqTimerKeeps(c, j);
        PostAllParams(ClearCqTimer(c, j), j);
      }
    case _ =>
  }

  /** What has left the arrays stays so: a run that ends unbroken never was. */
  lemma {:induction false} BrokenStays(c: Ctrl, es: seq<Event>)
    requires Inv(c) && c.broken
    ensures Run(c, es).broken
    decreases |es|
  {
    hide Inv, Step, EventFits;
    if es != [] {
      StepKeeps(c, es[0]);
      StepUnbroken(c, es[0]);
      BrokenStays(Step(c, es[0]), es[1..]);
    }
  }

  /** The code leaves its arrays, or makes a ring of size zero, only when a creation
      command asks for it; by `CreateSqExact` and `CreateCqExact` it then always does. */
  lemma {:induction false} FittingRunIsUnbroken(c: Ctrl, es: seq<Event>)
    requires Inv(c) && AllFit(c.params, es)
    ensures Run(c, es).broken == c.broken
    decreases |es|
  {
    hide Inv, Step, EventFits;
    if es != [] {
      StepKeeps(c, es[0]);
      StepUnbroken(c, es[0]);
      FittingRunIsUnbroken(Step(c, es[0]), es[1..]);
    }
  }

  /** From start-up, after any events: host writes of any value to any doorbell, I/O that
      ends in any order and with any result, and queues created and deleted at any time, as
      long as no command has made the code leave its arrays; and commands with fitting
      identifiers and sizes never do. */
  lemma EveryRunIsSound(p: Params, acqs: nat, asqs: nat, burst: nat, es: seq<Event>)
    requires acqs >= 1 && asqs >= 1
    ensures Inv(StartUp(p, acqs, asqs, burst))
    ensures
      var t := Run(StartUp(p, acqs, asqs, burst), es);
      (!t.broken ==> AllSound(t)) && (AllFit(p, es) ==> !t.broken)
  {
    hide Inv, Sound, SoundCq, Run, AllFit;
    StartUpInv(p, acqs, asqs, burst);
    RunKeeps(StartUp(p, acqs, asqs, burst), es);
    InvSound(Run(StartUp(p, acqs, asqs, burst), es));
    if AllFit(p, es) {
      FittingRunIsUnbroken(StartUp(p, acqs, asqs, burst), es);
    }
  }

  // ---------------------------------------------------------------------------
  // The controller in place
  // ---------------------------------------------------------------------------

  lemma DeleteSqUnfolds(c: Ctrl, qid: nat, done: set<nat>)
    requires Good(c) && qid != 0 && ValidSq(c, qid)
    ensures c.sqs[qid].cqid in c.cqs
    ensures
      var c1 := CancelAll(c, qid, done);
      && qid in c1.sqs && c1.sqs[qid].cqid in c1.cqs
      && Postable(Unlist(c1, qid, c1.sqs[qid].cqid), c1.sqs[qid].cqid)
      && c1.sqs[qid].cqid in PostAll(Unlist(c1, qid, c1.sqs[qid].cqid), c1.sqs[qid].cqid).cqs
      && DoDeleteSq(c, qid, done)
         == (FreeSq(PostAll(Unlist(c1, qid, c1.sqs[qid].cqid), c1.sqs[qid].cqid), qid, c1.sqs[qid].cqid), SUCCESS)
  {
    hide Structured, ListedBut, CqAwake, PostAll, CancelAll;
    HeldQueue(c, qid);
    CancelAllKeeps(c, qid, done);
    CancelAllOnly(c, qid, done);
    var c1 := CancelAll(c, qid, done);
    QuietKeeps(c, c1, {});
    UnlistKeeps(c1, qid);
    PostAllKeeps(Unlist(c1, qid, c1.sqs[qid].cqid), c1.sqs[qid].cqid);
  }

  class Controller {
    const params: Params
    var sqs: map<nat, SQueue>
    var cqs: map<nat, CQueue>
    ghost var broken: bool       // a queue was stored outside the arrays, or has size zero

    ghost function State(): Ctrl
      reads this
    {
      Ctrl(params, sqs, cqs, broken)
    }

    constructor (p: Params, acqs: nat, asqs: nat, burst: nat)
      requires acqs >= 1 && asqs >= 1
      ensures State() == StartUp(p, acqs, asqs, burst)
    {
      params := p;
      sqs, cqs := map[0 := InitSq(0, 0, asqs + 1, burst)], map[0 := InitCq(acqs + 1).(sqList := [0])];
      broken := false;
      new;
      assert [] + [0] == [0];
      assert sqs == StartUp(p, acqs, asqs, burst).sqs && cqs == StartUp(p, acqs, asqs, burst).cqs;
    }

    method EnqueueCompletion(i: nat, k: nat, status: nat, o: Outcome)
      requires i in sqs && sqs[i].cqid in cqs && k < |sqs[i].outReqList|
      modifies this
      ensures State() == Complete(old(State()), i, k, status, o)
    {
      var q := sqs[i];
      var cq := cqs[q.cqid];
      var req := q.outReqList[k].(status := status);
      sqs := sqs[i := q.(outReqList := q.outReqList[..k] + q.outReqList[k + 1..],
                         outcomes := q.outcomes[req.serial := o])];
      cqs := cqs[q.cqid := cq.(reqList := cq.reqList + [req], timer := true)];
    }

    method PostCqes(j: nat)
      requires Postable(State(), j)
      modifies this
      ensures State() == PostAll(old(State()), j)
    {
      while cqs[j].reqList != [] && !CqFull(cqs[j])
        invariant Postable(State(), j)
        invariant PostAll(State(), j) == PostAll(old(State()), j)
        decreases if j in cqs then |cqs[j].reqList| else 0
      {
        var cq := cqs[j];
        var req := cq.reqList[0];
        var entry := Rings.Cqe(req.cid, req.sqid, sqs[req.sqid].head, req.status, cq.phase);
        cq := cq.(reqList := cq.reqList[1..], posted := cq.posted + [entry], tail := cq.tail + 1);
        if cq.tail >= cq.size {
          cq := cq.(tail := 0, phase := !cq.phase);
        }
        var q := sqs[req.sqid];
        sqs := sqs[req.sqid := q.(reqList := q.reqList + [req], answered := q.answered + [req])];
        cqs := cqs[j := cq];
      }
    }

    method CancelOutstanding(i: nat, done: set<nat>)
      requires i in sqs && sqs[i].cqid in cqs
      modifies this
      ensures State() == CancelAll(old(State()), i, done)
    {
      while sqs[i].outReqList != []
        invariant i in sqs && sqs[i].cqid in cqs
        invariant CancelAll(State(), i, done) == CancelAll(old(State()), i, done)
        decreases if i in sqs then |sqs[i].outReqList| else 0
      {
        var finished := sqs[i].outReqList[0].index in done;
        EnqueueCompletion(i, 0, if finished then SUCCESS else INTERNAL_DEV_ERROR, IoEnded(finished));
      }
    }

    /** Delete I/O Submission Queue. */
    method DeleteSq(qid: nat, done: set<nat>) returns (status: nat)
      requires Good(State())
      modifies this
      ensures (State(), status) == DoDeleteSq(old(State()), qid, done)
    {
      if qid == 0 || !(qid < params.numQueues && qid in sqs) {
        return INVALID_QID + DNR;
      }
      DeleteSqUnfolds(State(), qid, done);
      hide Good, CancelAll, PostAll, DoDeleteSq, NotOf, WithoutId;
      CancelOutstanding(qid, done);
      var j := sqs[qid].cqid;
      UnlinkSq(qid, j);
      PostCqes(j);
      TakeBack(qid, j);
      sqs := sqs - {qid};
      return SUCCESS;
    }

    /** Remove a queue from its completion queue's list. */
    method UnlinkSq(i: nat, j: nat)
      requires j in cqs
      modifies `cqs
      ensures State() == Unlist(old(State()), i, j)
    {
      var l := FindAndRemove(cqs[j].sqList, i);
      cqs := cqs[j := cqs[j].(sqList := l)];
    }

    static method FindAndRemove(l: seq<nat>, i: nat) returns (r: seq<nat>)
      ensures r == WithoutId(l, i)
    {
      var rest, kept := l, [];
      while rest != [] && rest[0] != i
        invariant kept + WithoutId(rest, i) == WithoutId(l, i)
        decreases |rest|
      {
        kept, rest := kept + [rest[0]], rest[1..];
      }
      return kept + if rest == [] then [] else rest[1..];
    }

    /** Take the waiting requests of queue `i` out of its completion queue. */
    method TakeBack(i: nat, j: nat)
      requires j in cqs
      modifies `cqs
      ensures State() == old(State()).(cqs := old(cqs)[j := old(cqs)[j].(reqList := NotOf(old(cqs)[j].reqList, i))])
    {
      var rest, kept := cqs[j].reqList, [];
      while rest != []
        invariant kept + NotOf(rest, i) == NotOf(cqs[j].reqList, i)
        decreases |rest|
      {
        if rest[0].sqid != i {
          kept := kept + [rest[0]];
        }
        rest := rest[1..];
      }
      assert kept + NotOf(rest, i) == kept;
      cqs := cqs[j := cqs[j].(reqList := kept)];
    }

    /** Delete I/O Completion Queue. */
    method DeleteCq(qid: nat) returns (status: nat)
      modifies this
      ensures (State(), status) == DoDeleteCq(old(State()), qid)
    {
      if qid == 0 || !(qid < params.numQueues && qid in cqs) {
        return INVALID_CQID + DNR;
      }
      if cqs[qid].sqList != [] {
        return INVALID_QUEUE_DEL;
      }
      cqs := cqs - {qid};
      return SUCCESS;
    }

    /** Create I/O Submission Queue. */
    method CreateSq(op: AdminOp) returns (status: nat)
      requires op.CreateSq?
      modifies this
      ensures (State(), status) == DoCreateSq(old(State()), op)
    {
      if op.cqid == 0 || !(op.cqid < params.numQueues && op.cqid in cqs) {
        return INVALID_CQID + DNR;
      }
      if op.sqid == 0 || (op.sqid < params.numQueues && op.sqid in sqs) {
        return INVALID_QID + DNR;
      }
      if op.qsize == 0 || op.qsize > params.mqes {
        return MAX_QSIZE_EXCEEDED + DNR;
      }
      if op.prp1 == 0 || Wrap(op.prp1, params.pageSize) != 0 {
        return INVALID_FIELD + DNR;
      }
      if !op.contiguous && params.contigRequired {
        return INVALID_FIELD + DNR;
      }
      if !op.contiguous && !ListTaken(op) {
        return INVALID_FIELD + DNR;
      }
      if !Fits(params, op.sqid, op.qsize) {
        broken := true;
        return SUCCESS;
      }
      sqs := sqs[op.sqid := InitSq(op.sqid, op.cqid, op.qsize + 1, ArbBurst(op.share))];
      cqs := cqs[op.cqid := cqs[op.cqid].(sqList := cqs[op.cqid].sqList + [op.sqid])];
      return SUCCESS;
    }

    /** Create I/O Completion Queue. */
    method CreateCq(op: AdminOp) returns (status: nat)
      requires op.CreateCq?
      modifies this
      ensures (State(), status) == DoCreateCq(old(State()), op)
    {
      if op.cqid == 0 || (op.cqid < params.numQueues && op.cqid in cqs) {
        return INVALID_CQID + DNR;
      }
      if op.qsize == 0 || op.qsize > params.mqes {
        return MAX_QSIZE_EXCEEDED + DNR;
      }
      if op.prp1 == 0 {
        return INVALID_FIELD + DNR;
      }
      if op.vector > params.numQueues {
        return INVALID_IRQ_VECTOR + DNR;
      }
      if !op.contiguous && params.contigRequired {
        return INVALID_FIELD + DNR;
      }
      if op.contiguous || ListTaken(op) {
        if !Fits(params, op.cqid, op.qsize) {
          broken := true;
        } else {
          cqs := cqs[op.cqid := InitCq(op.qsize + 1)];
        }
      }
      return SUCCESS;
    }

    method ExecuteAdmin(op: AdminOp, other: Answer) returns (answer: Answer)
      requires Good(State())
      modifies this
      ensures (State(), answer) == Admin(old(State()), op, other)
    {
      var status;
      match op {
        case CreateSq(_, _, _, _, _, _, _) => status := CreateSq(op);
        case CreateCq(_, _, _, _, _, _) => status := CreateCq(op);
        case DeleteSq(qid, done) => status := DeleteSq(qid, done);
        case DeleteCq(qid) => status := DeleteCq(qid);
        case Other => return other;
      }
      return Now(status);
    }

    /** One command is fetched and carried out. */
    method FetchCommand(i: nat, f: Fetched)
      requires Good(State()) && AwakeBut(State(), {i}) && i in sqs && sqs[i].reqList != []
      modifies this
      ensures State() == FetchOne(old(State()), i, f)
    {
      ghost var c := State();
      hide Good, AwakeBut, Admin, Answered;
      StartedKeeps(c, i, f.cid);
      sqs := sqs[i := Start(sqs[i], f.cid)];
      ghost var c1 := State();
      ExecutedKeeps(c1, i, f);
      var answer := f.answer;
      if i == 0 {
        answer := ExecuteAdmin(f.op, f.answer);
      }
      AnsweredKeeps(State(), i, answer);
      Reply(i, answer);
    }

    method Reply(i: nat, answer: Answer)
      requires i in sqs && sqs[i].cqid in cqs && sqs[i].outReqList != []
      modifies this
      ensures State() == Answered(old(State()), i, answer)
    {
      if answer.Now? {
        EnqueueCompletion(i, |sqs[i].outReqList| - 1, answer.status, AtOnce(answer.status));
      }
    }

    method FetchBurst(i: nat, env: nat -> Fetched, burst: nat)
      requires Good(State()) && AwakeBut(State(), {i}) && i in sqs
      modifies this
      ensures State() == FetchLoop(old(State()), i, env, 0, burst)
    {
      hide Good, AwakeBut, FetchOne;
      var processed := 0;
      while processed < burst && !(SqEmpty(sqs[i]) || sqs[i].reqList == [])
        invariant processed <= burst
        invariant Good(State()) && AwakeBut(State(), {i}) && i in sqs
        invariant FetchLoop(State(), i, env, processed, burst - processed) == FetchLoop(old(State()), i, env, 0, burst)
        decreases burst - processed
      {
        FetchOneKeeps(State(), i, env(processed));
        FetchCommand(i, env(processed));
        processed := processed + 1;
      }
    }

    method SetSqTimer(i: nat, on: bool)
      requires i in sqs
      modifies `sqs
      ensures State() == SetTimer(old(State()), i, on)
    {
      sqs := sqs[i := sqs[i].(timer := on)];
    }

    /** The submission queue's timer has fired. */
    method ProcessSq(i: nat, env: nat -> Fetched)
      requires Inv(State()) && i in sqs
      modifies this
      ensures State() == SqProcess(old(State()), i, env)
    {
      AwakeLess(State(), i);
      hide Good, AwakeBut, FetchLoop;
      var burst := sqs[i].arbBurst;
      SetTimerKeeps(State(), i, false);
      AwakeLess(SetTimer(State(), i, false), i);
      SetSqTimer(i, false);
      FetchLoopKeeps(State(), i, env, 0, burst);
      FetchBurst(i, env, burst);
      if !SqEmpty(sqs[i]) {
        SetSqTimer(i, true);
      }
    }

    /** The host has written a doorbell. */
    method ProcessDoorbell(addr: nat, value: int)
      requires addr >= 0x1000
      modifies this
      ensures State() == WriteDoorbell(old(State()), addr, value)
    {
      hide Wrap, Turns;
      match Decode(addr, params.doorbell)
      case Misplaced =>
      case TailOf(i) => WriteTail(i, value);
      case HeadOf(j) => WriteHead(j, value);
    }

    method WriteTail(i: nat, value: int)
      modifies this
      ensures State() == RingTail(old(State()), i, value)
    {
      var newTail := value % 0x10000;
      if i < params.numQueues && i in sqs && newTail < sqs[i].size {
        sqs := sqs[i := sqs[i].(tail := newTail, timer := true)];
      }
    }

    method WriteHead(j: nat, value: int)
      modifies this
      ensures State() == RingHead(old(State()), j, value)
    {
      var newHead := value % 0x10000;
      if j < params.numQueues && j in cqs && newHead < cqs[j].size {
        var startSqs := CqFull(cqs[j]);
        cqs := cqs[j := cqs[j].(head := newHead)];
        if startSqs {
          ArmQueues(cqs[j].sqList);
          cqs := cqs[j := cqs[j].(timer := true)];
        }
      }
    }

    method ArmQueues(l: seq<nat>)
      modifies `sqs
      ensures sqs == ArmAll(old(sqs), l)
    {
      var k := 0;
      while k < |l|
        invariant k <= |l| && sqs == ArmAll(old(sqs), l[..k])
      {
        if l[k] in sqs {
          sqs := sqs[l[k] := sqs[l[k]].(timer := true)];
        }
        assert l[..k + 1] == l[..k] + [l[k]];
        k := k + 1;
      }
      assert l[..k] == l;
    }
  }
}
