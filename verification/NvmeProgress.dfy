/** Controller and host together get their work done: as long as anything is left to do
    somebody can do it, and what they do comes to an end. */
module NvmeProgress {
  import opened Modular
  import opened NvmeQueues
  import opened NvmeQueueRuns
  import opened NvmeLoop
  import C = NvmeController
  import Rings = NvmeRings

  // ---------------------------------------------------------------------------
  // Sums over queue identifiers
  // ---------------------------------------------------------------------------

  function Sum(f: nat -> int, n: nat): int {
    if n == 0 then 0 else Sum(f, n - 1) + f(n - 1)
  }

  lemma {:induction false} SumSame(f: nat -> int, g: nat -> int, n: nat)
    requires forall k :: 0 <= k < n ==> f(k) == g(k)
    ensures Sum(f, n) == Sum(g, n)
  {
    if n > 0 { SumSame(f, g, n - 1); }
  }

  lemma {:induction false} SumChanges(f: nat -> int, g: nat -> int, n: nat, i: nat)
    requires i < n && forall k :: 0 <= k < n && k != i ==> f(k) == g(k)
    ensures Sum(g, n) - Sum(f, n) == g(i) - f(i)
  {
    if i == n - 1 { SumSame(f, g, n - 1); } else { SumChanges(f, g, n - 1, i); }
  }

  lemma {:induction false} SumBounded(f: nat -> int, n: nat)
    requires forall k :: 0 <= k < n ==> 0 <= f(k)
    ensures 0 <= Sum(f, n)
    ensures (forall k :: 0 <= k < n ==> f(k) <= 1) ==> Sum(f, n) <= n
  {
    if n > 0 { SumBounded(f, n - 1); }
  }

  // ---------------------------------------------------------------------------
  // What is left to do
  // ---------------------------------------------------------------------------

  /** Each command goes through six stages: submitted, covered by the doorbell, outstanding,
      waiting, posted, taken; its ring entry is then released. */
  function SqWork(q: SQueue, r: Rings.SqRing): int {
    6 * (|r.submitted| - r.rung) + 5 * (r.rung - |r.fetched|) + 4 * |q.outReqList|
  }

  function CqWork(q: CQueue, r: Rings.CqRing): int {
    3 * |q.reqList| + 2 * (|r.posted| - |r.consumed|) + (|r.consumed| - r.rung)
  }

  function SqWorkAt(j: Joint, i: nat): int {
    if i in j.c.sqs && i in j.s.sqs then SqWork(j.c.sqs[i], j.s.sqs[i]) else 0
  }

  function CqWorkAt(j: Joint, k: nat): int {
    if k in j.c.cqs && k in j.s.cqs then CqWork(j.c.cqs[k], j.s.cqs[k]) else 0
  }

  /** Stages that the commands still have to go through. */
  function Work(j: Joint): int {
    var n := j.c.params.numQueues;
    Sum((i: nat) => SqWorkAt(j, i), n) + Sum((k: nat) => CqWorkAt(j, k), n)
  }

  function SqArmed(c: Ctrl, i: nat): int { if i in c.sqs && c.sqs[i].timer then 1 else 0 }

  function CqArmed(c: Ctrl, k: nat): int { if k in c.cqs && c.cqs[k].timer then 1 else 0 }

  /** Timers that are running. */
  function Armed(c: Ctrl): int {
    var n := c.params.numQueues;
    Sum((i: nat) => SqArmed(c, i), n) + Sum((k: nat) => CqArmed(c, k), n)
  }

  /** A stage counts more than all timers together. */
  function Measure(j: Joint): int {
    (2 * j.c.params.numQueues + 1) * Work(j) + Armed(j.c)
  }

  lemma WorkChanges(j: Joint, t: Joint, i: nat, k: nat)
    requires t.c.params == j.c.params && i < j.c.params.numQueues && k < j.c.params.numQueues
    requires forall o: nat :: o != i ==> SqWorkAt(t, o) == SqWorkAt(j, o)
    requires forall o: nat :: o != k ==> CqWorkAt(t, o) == CqWorkAt(j, o)
    ensures Work(t) - Work(j) == SqWorkAt(t, i) - SqWorkAt(j, i) + CqWorkAt(t, k) - CqWorkAt(j, k)
  {
    hide SqWorkAt, CqWorkAt;
    var n := j.c.params.numQueues;
    SumChanges((o: nat) => SqWorkAt(j, o), (o: nat) => SqWorkAt(t, o), n, i);
    SumChanges((o: nat) => CqWorkAt(j, o), (o: nat) => CqWorkAt(t, o), n, k);
  }

  lemma ArmedBounds(c: Ctrl)
    ensures 0 <= Armed(c) <= 2 * c.params.numQueues
  {
    SumBounded((i: nat) => SqArmed(c, i), c.params.numQueues);
    SumBounded((k: nat) => CqArmed(c, k), c.params.numQueues);
  }

  /** One timer stops. */
  lemma ArmedFalls(c: Ctrl, t: Ctrl, i: nat, sq: bool)
    requires t.params == c.params && i < c.params.numQueues
    requires if sq then SqArmed(t, i) < SqArmed(c, i) else CqArmed(t, i) < CqArmed(c, i)
    requires forall o: nat :: !(sq && o == i) ==> SqArmed(t, o) == SqArmed(c, o)
    requires forall o: nat :: !(!sq && o == i) ==> CqArmed(t, o) == CqArmed(c, o)
    ensures Armed(t) < Armed(c)
  {
    hide SqArmed, CqArmed;
    SumChanges((o: nat) => SqArmed(c, o), (o: nat) => SqArmed(t, o), c.params.numQueues, i);
    SumChanges((o: nat) => CqArmed(c, o), (o: nat) => CqArmed(t, o), c.params.numQueues, i);
  }

  lemma WorkIsNatural(j: Joint)
    requires Matched(j)
    ensures Work(j) >= 0
  {
    forall i: nat ensures SqWorkAt(j, i) >= 0 && CqWorkAt(j, i) >= 0 {
      if i in j.c.sqs && i in j.s.sqs { assert Rings.SqInv(j.s.sqs[i]); }
      if i in j.c.cqs && i in j.s.cqs { assert Rings.CqInv(j.s.cqs[i]); }
    }
    SumBounded((i: nat) => SqWorkAt(j, i), j.c.params.numQueues);
    SumBounded((k: nat) => CqWorkAt(j, k), j.c.params.numQueues);
  }

  lemma StageOutweighsTimers(n: nat, work: int, work': int, armed: int, armed': int)
    requires work' < work && 0 <= armed && armed' <= 2 * n
    ensures (2 * n + 1) * work' + armed' < (2 * n + 1) * work + armed
  {
    var m, d := 2 * n + 1, work - work';
    MulAtLeast(d, m);
    assert m * work == m * (work' + d) == m * work' + m * d;
  }

  predicate SameBursts(c: Ctrl, t: Ctrl) {
    t.sqs.Keys == c.sqs.Keys && forall i :: i in c.sqs ==> t.sqs[i].arbBurst == c.sqs[i].arbBurst
  }

  /** The measure falls with the work, or with the timers when the work stays. */
  predicate Falls(j: Joint, t: Joint) {
    && t.c.params == j.c.params && SameBursts(j.c, t.c)
    && (Work(t) < Work(j) || (Work(t) == Work(j) && Armed(t.c) < Armed(j.c)))
  }

  lemma FallsMeasured(j: Joint, t: Joint)
    requires Falls(j, t)
    ensures Measure(t) < Measure(j)
  {
    hide Work, Armed;
    ArmedBounds(j.c);
    ArmedBounds(t.c);
    if Work(t) < Work(j) {
      StageOutweighsTimers(j.c.params.numQueues, Work(j), Work(t), Armed(j.c), Armed(t.c));
    }
  }

  // ---------------------------------------------------------------------------
  // Steps of the host
  // ---------------------------------------------------------------------------

  /** The identifiers of live queues are within the sums. */
  lemma Within(j: Joint)
    requires Matched(j)
    ensures forall i :: i in j.c.sqs ==> i in j.s.sqs && i < j.c.params.numQueues
    ensures forall k :: k in j.c.cqs ==> k in j.s.cqs && k < j.c.params.numQueues
  {
    hide Rings.Inv, SqJoined, CqJoined, AllAnswersPosted;
    forall i | i in j.c.sqs ensures i < j.c.params.numQueues {
      assert Addressable(j.c, i, j.c.sqs[i].size);
    }
    forall k | k in j.c.cqs ensures k < j.c.params.numQueues {
      assert Addressable(j.c, k, j.c.cqs[k].size);
    }
  }

  /** The lists whose lengths count, and the bursts, are as they were. */
  predicate SameLists(c: Ctrl, t: Ctrl) {
    && t.params == c.params && t.sqs.Keys == c.sqs.Keys && t.cqs.Keys == c.cqs.Keys
    && (forall i :: i in c.sqs ==> SameSqList(c.sqs[i], t.sqs[i]))
    && (forall k :: k in c.cqs ==> t.cqs[k].reqList == c.cqs[k].reqList)
  }

  predicate SameSqList(q: SQueue, t: SQueue) { t.outReqList == q.outReqList && t.arbBurst == q.arbBurst }

  lemma ListsBursts(c: Ctrl, t: Ctrl)
    requires SameLists(c, t)
    ensures SameBursts(c, t)
  {
    forall i | i in c.sqs ensures t.sqs[i].arbBurst == c.sqs[i].arbBurst {
      assert SameSqList(c.sqs[i], t.sqs[i]);
    }
  }

  lemma RingTailSame(c: Ctrl, i: nat, value: int)
    ensures SameLists(c, C.RingTail(c, i, value))
  {
  }

  lemma RingHeadSame(c: Ctrl, k: nat, value: int)
    ensures SameLists(c, C.RingHead(c, k, value))
  {
    hide CqFull;
  }

  /** Only one ring has moved; `i` is a submission queue and `k` a completion queue. */
  lemma OneSqMoves(j: Joint, t: Joint, i: nat, r: Rings.SqRing)
    requires Matched(j) && SameLists(j.c, t.c) && i in j.s.sqs && t.s == j.s.(sqs := j.s.sqs[i := r])
    requires SqWork(j.c.sqs[i], r) < SqWork(j.c.sqs[i], j.s.sqs[i])
    ensures Falls(j, t)
  {
    hide Matched, Work, SqWork, CqWork, SqWorkAt, CqWorkAt, SameSqList, SameBursts;
    Within(j);
    KeysMatch(j);
    ListsBursts(j.c, t.c);
    forall o: nat ensures CqWorkAt(t, o) == CqWorkAt(j, o) && (o != i ==> SqWorkAt(t, o) == SqWorkAt(j, o)) {
      SameWork(j, t, o);
    }
    NewSqWork(j, t, i);
    WorkChanges(j, t, i, i);
  }

  lemma OneCqMoves(j: Joint, t: Joint, k: nat, r: Rings.CqRing)
    requires Matched(j) && SameLists(j.c, t.c) && k in j.s.cqs && t.s.cqs == j.s.cqs[k := r]
    requires t.s.sqs.Keys == j.s.sqs.Keys && forall i :: i in j.s.sqs ==> SameSqRing(j.s.sqs[i], t.s.sqs[i])
    requires CqWork(j.c.cqs[k], r) < CqWork(j.c.cqs[k], j.s.cqs[k])
    ensures Falls(j, t)
  {
    hide Matched, Work, SqWork, CqWork, SqWorkAt, CqWorkAt, SameSqList, SameBursts;
    Within(j);
    KeysMatch(j);
    ListsBursts(j.c, t.c);
    forall o: nat ensures SqWorkAt(t, o) == SqWorkAt(j, o) && (o != k ==> CqWorkAt(t, o) == CqWorkAt(j, o)) {
      SameWork(j, t, o);
    }
    NewCqWork(j, t, k);
    WorkChanges(j, t, k, k);
  }

  predicate SameSqRing(r: Rings.SqRing, t: Rings.SqRing) {
    t.submitted == r.submitted && t.rung == r.rung && t.fetched == r.fetched
  }

  lemma NewSqWork(j: Joint, t: Joint, i: nat)
    requires SameLists(j.c, t.c) && i in j.c.sqs && i in j.s.sqs && i in t.s.sqs
    ensures SqWorkAt(j, i) == SqWork(j.c.sqs[i], j.s.sqs[i]) && SqWorkAt(t, i) == SqWork(j.c.sqs[i], t.s.sqs[i])
  {
    assert SameSqList(j.c.sqs[i], t.c.sqs[i]);
  }

  lemma NewCqWork(j: Joint, t: Joint, k: nat)
    requires SameLists(j.c, t.c) && k in j.c.cqs && k in j.s.cqs && k in t.s.cqs
    ensures CqWorkAt(j, k) == CqWork(j.c.cqs[k], j.s.cqs[k]) && CqWorkAt(t, k) == CqWork(j.c.cqs[k], t.s.cqs[k])
  {
  }

  lemma SameWork(j: Joint, t: Joint, o: nat)
    requires SameLists(j.c, t.c) && t.s.sqs.Keys == j.s.sqs.Keys && t.s.cqs.Keys == j.s.cqs.Keys
    ensures (o in j.s.sqs ==> SameSqRing(j.s.sqs[o], t.s.sqs[o])) ==> SqWorkAt(t, o) == SqWorkAt(j, o)
    ensures (o in j.s.cqs ==> t.s.cqs[o] == j.s.cqs[o]) ==> CqWorkAt(t, o) == CqWorkAt(j, o)
  {
    if o in j.c.sqs { assert SameSqList(j.c.sqs[o], t.c.sqs[o]); }
  }

  lemma ConsumedOne(s: Rings.System, k: nat)
    requires Rings.Shaped(s) && k in s.cqs && Rings.EntryReady(s.cqs[k])
    ensures
      var t := Rings.Step(s, Rings.Consume(k));
      && s.cqs[k].hostHead < |s.cqs[k].memory|
      && t.cqs == s.cqs[k := Rings.ConsumeEntry(s.cqs[k])] && t.sqs.Keys == s.sqs.Keys
      && forall i :: i in s.sqs ==> SameSqRing(s.sqs[i], t.sqs[i])
  {
  }

  lemma ConsumeFalls(j: Joint, k: nat)
    requires JointInv(j) && Rings.Shaped(j.s) && k in j.s.cqs && Rings.EntryReady(j.s.cqs[k])
    ensures Falls(j, Step(j, Consume(k)))
  {
    hide C.Inv, Matched, Rings.Shaped, Rings.Step, Falls;
    ConsumedOne(j.s, k);
    NothingDone(j.c);
    OneCqMoves(j, Step(j, Consume(k)), k, Rings.ConsumeEntry(j.s.cqs[k]));
  }

  lemma NothingDone(c: Ctrl)
    ensures SameLists(c, c)
  {
  }

  /** A doorbell that covers something new. */
  lemma TailBellFalls(j: Joint, i: nat)
    requires JointInv(j) && Rings.Shaped(j.s) && i in j.s.sqs && j.s.sqs[i].rung < |j.s.sqs[i].submitted|
    ensures Falls(j, Step(j, TailBell(i)))
  {
    hide C.Inv, Matched, Rings.Shaped, Falls, C.RingTail, SameLists;
    var q := j.s.sqs[i];
    RingTailSame(j.c, i, q.hostTail);
    OneSqMoves(j, Step(j, TailBell(i)), i, q.(tail := q.hostTail, rung := |q.submitted|));
  }

  lemma HeadBellFalls(j: Joint, k: nat)
    requires JointInv(j) && Rings.Shaped(j.s) && k in j.s.cqs && j.s.cqs[k].rung < |j.s.cqs[k].consumed|
    ensures Falls(j, Step(j, HeadBell(k)))
  {
    hide C.Inv, Matched, Rings.Shaped, Falls, C.RingHead, SameLists;
    var q := j.s.cqs[k];
    RingHeadSame(j.c, k, q.hostHead);
    OneCqMoves(j, Step(j, HeadBell(k)), k, q.(head := q.hostHead, rung := |q.consumed|));
  }

  // ---------------------------------------------------------------------------
  // Steps of the controller
  // ---------------------------------------------------------------------------

  predicate SameCqRing(r: Rings.CqRing, t: Rings.CqRing) {
    t.posted == r.posted && t.consumed == r.consumed && t.rung == r.rung
  }

  /** The same queues; work has changed at most for submission queue `i` and completion
      queue `k`. */
  predicate OnlyAt(j: Joint, t: Joint, i: nat, k: nat) {
    && t.c.params == j.c.params && t.c.sqs.Keys == j.c.sqs.Keys && t.c.cqs.Keys == j.c.cqs.Keys
    && t.s.sqs.Keys == j.s.sqs.Keys && t.s.cqs.Keys == j.s.cqs.Keys
    && (forall o :: o in j.c.sqs && o != i ==> |t.c.sqs[o].outReqList| == |j.c.sqs[o].outReqList|)
    && (forall o :: o in j.s.sqs && o != i ==> SameSqRing(j.s.sqs[o], t.s.sqs[o]))
    && (forall o :: o in j.c.cqs && o != k ==> |t.c.cqs[o].reqList| == |j.c.cqs[o].reqList|)
    && (forall o :: o in j.s.cqs && o != k ==> SameCqRing(j.s.cqs[o], t.s.cqs[o]))
  }

  lemma WorkElsewhere(j: Joint, t: Joint, i: nat, k: nat, o: nat)
    requires OnlyAt(j, t, i, k)
    ensures o != i ==> SqWorkAt(t, o) == SqWorkAt(j, o)
    ensures o != k ==> CqWorkAt(t, o) == CqWorkAt(j, o)
  {
  }

  lemma WorkHere(j: Joint, t: Joint, i: nat, k: nat)
    requires Matched(j) && OnlyAt(j, t, i, k) && i in j.c.sqs && k in j.c.cqs
    ensures i in j.s.sqs && i in t.s.sqs && k in j.s.cqs && k in t.s.cqs && i in t.c.sqs && k in t.c.cqs
    ensures Work(t) - Work(j) == SqWork(t.c.sqs[i], t.s.sqs[i]) - SqWork(j.c.sqs[i], j.s.sqs[i])
                                 + CqWork(t.c.cqs[k], t.s.cqs[k]) - CqWork(j.c.cqs[k], j.s.cqs[k])
  {
    hide Matched, Work, SqWork, CqWork, SqWorkAt, CqWorkAt;
    Within(j);
    forall o: nat
      ensures o != i ==> SqWorkAt(t, o) == SqWorkAt(j, o)
      ensures o != k ==> CqWorkAt(t, o) == CqWorkAt(j, o)
    {
      WorkElsewhere(j, t, i, k, o);
    }
    WorkChanges(j, t, i, k);
    WorkThere(j, i, k);
    WorkThere(t, i, k);
  }

  lemma WorkThere(j: Joint, i: nat, k: nat)
    requires i in j.c.sqs && i in j.s.sqs && k in j.c.cqs && k in j.s.cqs
    ensures SqWorkAt(j, i) == SqWork(j.c.sqs[i], j.s.sqs[i]) && CqWorkAt(j, k) == CqWork(j.c.cqs[k], j.s.cqs[k])
  {
  }

  lemma Completed(c: Ctrl, i: nat, n: nat, status: nat, o: Outcome)
    requires i in c.sqs && c.sqs[i].cqid in c.cqs && n < |c.sqs[i].outReqList|
    ensures
      var t, k := Complete(c, i, n, status, o), c.sqs[i].cqid;
      && t.params == c.params && t.sqs.Keys == c.sqs.Keys && t.cqs.Keys == c.cqs.Keys && SameBursts(c, t)
      && (forall o :: o in c.sqs && o != i ==> t.sqs[o].outReqList == c.sqs[o].outReqList)
      && (forall o :: o in c.cqs && o != k ==> t.cqs[o].reqList == c.cqs[o].reqList)
      && |t.sqs[i].outReqList| == |c.sqs[i].outReqList| - 1 && |t.cqs[k].reqList| == |c.cqs[k].reqList| + 1
  {
  }

  lemma IoDoneOnly(j: Joint, i: nat, n: nat, status: nat, o: Outcome)
    requires Matched(j) && i in j.c.sqs && j.c.sqs[i].cqid in j.c.cqs && n < |j.c.sqs[i].outReqList|
    ensures
      var t := j.(c := Complete(j.c, i, n, status, o));
      OnlyAt(j, t, i, j.c.sqs[i].cqid) && SameBursts(j.c, t.c)
  {
    hide Matched, Complete, SameBursts;
    Completed(j.c, i, n, status, o);
  }

  lemma IoDoneFalls(j: Joint, i: nat, n: nat, ok: bool)
    requires JointInv(j) && i in j.c.sqs && n < |j.c.sqs[i].outReqList|
    ensures Falls(j, Step(j, IoDone(i, n, ok)))
  {
    hide Good, AwakeBut, Matched, Complete, Work, SameBursts, OnlyAt;
    InGoodQueue(j.c, i);
    var status := if ok then SUCCESS else INTERNAL_DEV_ERROR;
    IoDoneOnly(j, i, n, status, IoEnded(ok));
    Completed(j.c, i, n, status, IoEnded(ok));
    WorkHere(j, IoEnd(j, i, n, ok), i, j.c.sqs[i].cqid);
  }

  lemma InGoodQueue(c: Ctrl, i: nat)
    requires Good(c) && i in c.sqs
    ensures c.sqs[i].cqid in c.cqs
  {
    C.GoodStructured(c);
    HeldQueue(c, i);
  }

  /** A fetched command is outstanding, or waits when it was answered at once. */
  lemma FetchedOne(c: Ctrl, i: nat, cid: nat, a: Answer)
    requires Good(c) && AwakeBut(c, {i}) && i in c.sqs && c.sqs[i].reqList != []
    ensures
      var t, k := C.FetchOne(c, i, C.Fetched(cid, Other, a)), c.sqs[i].cqid;
      && k in c.cqs && t.sqs.Keys == c.sqs.Keys && t.cqs.Keys == c.cqs.Keys
      && |t.sqs[i].outReqList| == |c.sqs[i].outReqList| + (if a.Later? then 1 else 0)
      && |t.cqs[k].reqList| == |c.cqs[k].reqList| + (if a.Later? then 0 else 1)
      && (forall o :: o in c.cqs && o != k ==> t.cqs[o].reqList == c.cqs[o].reqList)
  {
    hide Good, AwakeBut;
    InGoodQueue(c, i);
    C.StartedKeeps(c, i, cid);
    var c1 := C.Started(c, i, cid);
    C.ExecutedKeeps(c1, i, C.Fetched(cid, Other, a));
    C.AnsweredKeeps(c1, i, a);
  }

  /** Less work, for the same queues. */
  predicate Shrinks(j: Joint, t: Joint) {
    t.c.params == j.c.params && SameBursts(j.c, t.c) && Work(t) < Work(j)
  }

  lemma FetchedBursts(c: Ctrl, i: nat, cid: nat, a: Answer)
    requires Good(c) && AwakeBut(c, {i}) && i in c.sqs && c.sqs[i].reqList != []
    ensures SameBursts(c, C.FetchOne(c, i, C.Fetched(cid, Other, a)))
  {
    hide Good, AwakeBut, C.FetchOne;
    FetchOther(c, i, cid, a);
  }

  lemma FetchTurnOnly(j: Joint, i: nat, a: Answer)
    requires Good(j.c) && AwakeBut(j.c, {i}) && Matched(j) && i in j.c.sqs && j.c.sqs[i].reqList != []
    requires !SqEmpty(j.c.sqs[i])
    ensures i in j.s.sqs && i in FetchTurn(j, i, a).s.sqs
    ensures
      var t := FetchTurn(j, i, a);
      && OnlyAt(j, t, i, j.c.sqs[i].cqid) && t.s.cqs == j.s.cqs
      && t.s.sqs[i].submitted == j.s.sqs[i].submitted && t.s.sqs[i].rung == j.s.sqs[i].rung
      && |t.s.sqs[i].fetched| == |j.s.sqs[i].fetched| + 1
  {
    hide Good, AwakeBut, C.FetchOne, Rings.Inv, CqsJoined, AllAnswersPosted;
    MatchedShaped(j);
    var r := j.s.sqs[i];
    assert SqJoined(j.c.sqs[i], r);
    FetchedOne(j.c, i, r.memory[r.head].cid, a);
    FetchOther(j.c, i, r.memory[r.head].cid, a);
  }

  lemma FetchTurnShrinks(j: Joint, i: nat, a: Answer)
    requires Good(j.c) && AwakeBut(j.c, {i}) && Matched(j) && i in j.c.sqs && j.c.sqs[i].reqList != []
    requires !SqEmpty(j.c.sqs[i])
    ensures Shrinks(j, FetchTurn(j, i, a))
  {
    hide Good, AwakeBut, C.FetchOne, Rings.Inv, SqsJoined, CqsJoined, AllAnswersPosted, Rings.Step, Work, SameBursts,
         OnlyAt;
    MatchedShaped(j);
    KeysMatch(j);
    var r, t := j.s.sqs[i], FetchTurn(j, i, a);
    FetchTurnOnly(j, i, a);
    FetchTurnKeeps(j, i, a);
    FetchedOne(j.c, i, r.memory[r.head].cid, a);
    FetchedBursts(j.c, i, r.memory[r.head].cid, a);
    WorkHere(j, t, i, j.c.sqs[i].cqid);
  }

  /** A burst with something to fetch, and a request for it, shrinks the work; any other
      does nothing. */
  lemma {:induction false} FetchTurnsShrink(j: Joint, i: nat, answers: nat -> Answer, n: nat, budget: nat)
    requires Good(j.c) && AwakeBut(j.c, {i}) && Matched(j) && i in j.c.sqs
    ensures
      var t := FetchTurns(j, i, answers, n, budget);
      if budget == 0 || SqEmpty(j.c.sqs[i]) || j.c.sqs[i].reqList == [] then t == j else Shrinks(j, t)
    decreases budget
  {
    hide Good, AwakeBut, Matched, FetchTurn, Work;
    if !(budget == 0 || SqEmpty(j.c.sqs[i]) || j.c.sqs[i].reqList == []) {
      FetchTurnKeeps(j, i, answers(n));
      FetchTurnShrinks(j, i, answers(n));
      FetchTurnsShrink(FetchTurn(j, i, answers(n)), i, answers, n + 1, budget - 1);
    }
  }

  /** Only timers differ. */
  lemma TimersOnly(j: Joint, t: Joint)
    requires Matched(j) && t.s == j.s && SameLists(j.c, t.c)
    ensures Work(t) == Work(j) && SameBursts(j.c, t.c)
  {
    hide Matched, SqWorkAt, CqWorkAt;
    KeysMatch(j);
    ListsBursts(j.c, t.c);
    forall o: nat ensures SqWorkAt(t, o) == SqWorkAt(j, o) && CqWorkAt(t, o) == CqWorkAt(j, o) {
      SameWork(j, t, o);
    }
    SumSame((o: nat) => SqWorkAt(j, o), (o: nat) => SqWorkAt(t, o), j.c.params.numQueues);
    SumSame((o: nat) => CqWorkAt(j, o), (o: nat) => CqWorkAt(t, o), j.c.params.numQueues);
  }

  lemma TimerStops(c: Ctrl, i: nat)
    requires i in c.sqs && c.sqs[i].timer && i < c.params.numQueues
    ensures SameLists(c, C.SetTimer(c, i, false)) && Armed(C.SetTimer(c, i, false)) < Armed(c)
  {
    hide Armed;
    ArmedFalls(c, C.SetTimer(c, i, false), i, true);
  }

  lemma CqTimerStops(c: Ctrl, k: nat)
    requires k in c.cqs && c.cqs[k].timer && k < c.params.numQueues
    ensures SameLists(c, C.ClearCqTimer(c, k)) && Armed(C.ClearCqTimer(c, k)) < Armed(c)
  {
    hide Armed;
    ArmedFalls(c, C.ClearCqTimer(c, k), k, false);
  }

  lemma SetTimerLists(c: Ctrl, i: nat, on: bool)
    requires i in c.sqs
    ensures SameLists(c, C.SetTimer(c, i, on))
    ensures c.sqs[i].timer == on ==> C.SetTimer(c, i, on) == c
  {
    if c.sqs[i].timer == on {
      assert c.sqs[i].(timer := on) == c.sqs[i] && c.sqs[i := c.sqs[i]] == c.sqs;
    }
  }

  lemma SqTimerFalls(j: Joint, i: nat, answers: nat -> Answer)
    requires JointInv(j) && i in j.c.sqs && j.c.sqs[i].timer
    ensures FetchBurst(j, i, answers) == j || Falls(j, FetchBurst(j, i, answers))
    ensures
      SqEmpty(j.c.sqs[i]) || (j.c.sqs[i].reqList != [] && j.c.sqs[i].arbBurst > 0) ==>
        Falls(j, FetchBurst(j, i, answers))
  {
    hide Good, CqAwake, Matched, FetchTurns, SameLists, Work, Armed, SameBursts;
    Within(j);
    TimerFired(j, i);
    var j1, n := j.(c := C.SetTimer(j.c, i, false)), j.c.sqs[i].arbBurst;
    TimerStops(j.c, i);
    TimersOnly(j, j1);
    FetchTurnsShrink(j1, i, answers, 0, n);
    FetchTurnsKeeps(j1, i, answers, 0, n);
    var t := FetchTurns(j1, i, answers, 0, n);
    SetTimerLists(t.c, i, true);
    TimersOnly(t, t.(c := C.SetTimer(t.c, i, true)));
    if t == j1 && !SqEmpty(t.c.sqs[i]) {
      assert C.SetTimer(j1.c, i, true) == C.SetTimer(j.c, i, true);
      SetTimerLists(j.c, i, true);
    } else {
      BurstsTwice(j.c, j1.c, t.c);
      BurstsTwice(j.c, t.c, C.SetTimer(t.c, i, true));
    }
  }

  lemma BurstsTwice(c: Ctrl, t: Ctrl, u: Ctrl)
    requires SameBursts(c, t)
    ensures SameBursts(t, u) ==> SameBursts(c, u)
  {
  }

  lemma PostTurnOnly(j: Joint, k: nat)
    requires Structured(j.c) && Matched(j) && k in j.c.cqs && j.c.cqs[k].reqList != [] && !CqFull(j.c.cqs[k])
    ensures k in j.s.cqs && k in PostTurn(j, k).s.cqs && j.c.cqs[k].reqList[0].sqid in j.c.sqs
    ensures
      var t, i := PostTurn(j, k), j.c.cqs[k].reqList[0].sqid;
      && OnlyAt(j, t, i, k) && t.s.sqs == j.s.sqs && t.c.sqs[i].outReqList == j.c.sqs[i].outReqList
      && SameBursts(j.c, t.c) && |t.c.cqs[k].reqList| == |j.c.cqs[k].reqList| - 1
      && |t.s.cqs[k].posted| == |j.s.cqs[k].posted| + 1
      && t.s.cqs[k].consumed == j.s.cqs[k].consumed && t.s.cqs[k].rung == j.s.cqs[k].rung
  {
    hide Structured, PostOne, Matched, Wrap, Rings.Step;
    MatchedShaped(j);
    KeysMatch(j);
    PostedOne(j.c, k);
    PostOneList(j.c, k);
    var r := j.c.cqs[k].reqList[0];
    RingNotFull(j, k, r.sqid);
    RingPosted(j.s, r.sqid, r.cid, r.status);
  }

  /** The ring of a queue that is not full is not full. */
  lemma RingNotFull(j: Joint, k: nat, i: nat)
    requires Matched(j) && k in j.c.cqs && i in j.c.sqs && j.c.sqs[i].cqid == k && !CqFull(j.c.cqs[k])
    ensures i in j.s.sqs && k in j.s.cqs && j.s.sqs[i].cqid == k && j.s.cqs[k].size >= 1 && !Rings.CqFull(j.s.cqs[k])
  {
    hide Rings.Inv, AllAnswersPosted, CidsOf, Wrap;
    assert SqJoined(j.c.sqs[i], j.s.sqs[i]) && CqJoined(j.c.cqs[k], j.s.cqs[k]);
  }

  lemma PostOneList(c: Ctrl, k: nat)
    requires k in c.cqs && c.cqs[k].reqList != [] && c.cqs[k].reqList[0].sqid in c.sqs
    ensures k in PostOne(c, k).cqs && PostOne(c, k).cqs[k].reqList == c.cqs[k].reqList[1..]
  {
  }

  lemma PostTurnShrinks(j: Joint, k: nat)
    requires Structured(j.c) && Matched(j) && k in j.c.cqs && j.c.cqs[k].reqList != [] && !CqFull(j.c.cqs[k])
    ensures Shrinks(j, PostTurn(j, k))
  {
    hide Structured, Matched, PostTurn, Work, SameBursts, CqFull;
    PostTurnOnly(j, k);
    WorkHere(j, PostTurn(j, k), j.c.cqs[k].reqList[0].sqid, k);
  }

  /** The same for posting. */
  lemma {:induction false} PostTurnsShrink(j: Joint, k: nat)
    requires Structured(j.c) && Matched(j) && k in j.c.cqs
    ensures
      var t := PostTurns(j, k);
      if j.c.cqs[k].reqList == [] || CqFull(j.c.cqs[k]) then t == j else Shrinks(j, t)
    decreases if k in j.c.cqs then |j.c.cqs[k].reqList| else 0
  {
    hide Structured, Matched, CqFull, PostTurn, Work, SameBursts, OnlyAt;
    if !(j.c.cqs[k].reqList == [] || CqFull(j.c.cqs[k])) {
      PostTurnKeeps(j, k);
      PostTurnShrinks(j, k);
      PostTurnsShrink(PostTurn(j, k), k);
      BurstsTwice(j.c, PostTurn(j, k).c, PostTurns(j, k).c);
    }
  }

  lemma CqTimerFalls(j: Joint, k: nat)
    requires JointInv(j) && k in j.c.cqs && j.c.cqs[k].timer
    ensures Falls(j, PostBurst(j, k))
  {
    hide Good, AwakeBut, CqFull, Structured, Matched, PostTurns, SameLists, Work, Armed, SameBursts;
    Within(j);
    TimerCleared(j, k);
    var j1 := j.(c := C.ClearCqTimer(j.c, k));
    CqTimerStops(j.c, k);
    TimersOnly(j, j1);
    PostTurnsShrink(j1, k);
    BurstsTwice(j.c, j1.c, PostTurns(j1, k).c);
  }

  // ---------------------------------------------------------------------------
  // Moves
  // ---------------------------------------------------------------------------

  /** Everything but new commands and new queues; the host rings a doorbell only when it has
      something new to say. */
  predicate Move(j: Joint, e: Event) {
    match e
    case Consume(_) => true
    case TailBell(i) => i in j.s.sqs && j.s.sqs[i].rung < |j.s.sqs[i].submitted|
    case HeadBell(k) => k in j.s.cqs && j.s.cqs[k].rung < |j.s.cqs[k].consumed|
    case SqTimer(_, _) => true
    case CqTimer(_) => true
    case IoDone(_, _, _) => true
    case _ => false
  }

  /** A move that changes anything at all brings the end nearer. */
  lemma MoveFalls(j: Joint, e: Event)
    requires JointInv(j) && Move(j, e)
    ensures Step(j, e) == j || Falls(j, Step(j, e))
  {
    hide C.Inv, Matched, Rings.Shaped, Falls, FetchBurst, PostBurst, IoEnd, TailDoorbell, HeadDoorbell;
    MatchedShaped(j);
    match e
    case Consume(k) =>
      if k in j.s.cqs { ConsumeOrNot(j, k); } else { NoQueue(j.s, k); }
    case TailBell(i) => TailBellFalls(j, i);
    case HeadBell(k) => HeadBellFalls(j, k);
    case SqTimer(i, answers) => if i in j.c.sqs && j.c.sqs[i].timer { SqTimerFalls(j, i, answers); }
    case CqTimer(k) => if k in j.c.cqs && j.c.cqs[k].timer { CqTimerFalls(j, k); }
    case IoDone(i, n, ok) => if i in j.c.sqs && n < |j.c.sqs[i].outReqList| { IoDoneFalls(j, i, n, ok); }
    case _ =>
  }

  lemma ConsumeOrNot(j: Joint, k: nat)
    requires JointInv(j) && Rings.Shaped(j.s) && k in j.s.cqs
    ensures Step(j, Consume(k)) == j || Falls(j, Step(j, Consume(k)))
  {
    hide C.Inv, Matched, Falls;
    assert Rings.CqShaped(j.s.cqs[k]);
    if Rings.EntryReady(j.s.cqs[k]) { ConsumeFalls(j, k); }
  }

  lemma NoQueue(s: Rings.System, k: nat)
    requires Rings.Shaped(s) && k !in s.cqs
    ensures Rings.Step(s, Rings.Consume(k)) == s
  {
  }

  // ---------------------------------------------------------------------------
  // Somebody can always move
  // ---------------------------------------------------------------------------

  const ALL_LATER: nat -> Answer := (n: nat) => Later

  /** A completion that waits can be posted, or the host can make room for it. */
  lemma WaitingMoves(j: Joint, k: nat) returns (e: Event)
    requires JointInv(j) && k in j.c.cqs && j.c.cqs[k].reqList != []
    ensures Move(j, e) && Falls(j, Step(j, e))
  {
    hide Good, Matched, Rings.Shaped, Falls, PostBurst, SqAwake, Wrap, Rings.TagOf, Rings.SlotsHold;
    MatchedShaped(j);
    KeysMatch(j);
    CqSides(j, k);
    if j.c.cqs[k].timer {
      e := CqTimer(k);
      CqTimerFalls(j, k);
    } else {
      e := TakingMoves(j, k);
    }
  }

  /** What the two sides know of completion queue `k`. */
  lemma CqSides(j: Joint, k: nat)
    requires JointInv(j) && k in j.c.cqs
    ensures k in j.s.cqs && CqJoined(j.c.cqs[k], j.s.cqs[k]) && Rings.CqInv(j.s.cqs[k]) && CqAwake(j.c.cqs[k])
  {
    hide CqJoined, Rings.CqInv, CqAwake, Good, SqsJoined, AllAnswersPosted;
  }

  lemma TakingMoves(j: Joint, k: nat) returns (e: Event)
    requires JointInv(j) && Rings.Shaped(j.s) && k in j.c.cqs && k in j.s.cqs
    requires CqJoined(j.c.cqs[k], j.s.cqs[k]) && Rings.CqInv(j.s.cqs[k]) && CqFull(j.c.cqs[k])
    ensures Move(j, e) && Falls(j, Step(j, e))
  {
    hide C.Inv, Matched, Rings.Shaped, Falls, Rings.TagOf, Rings.SlotsHold;
    var r := j.s.cqs[k];
    Rings.CqFullExact(r);
    Rings.PollIsExact(r);
    if |r.consumed| < |r.posted| {
      e := Consume(k);
      ConsumeFalls(j, k);
    } else {
      e := HeadBell(k);
      HeadBellFalls(j, k);
    }
  }

  /** With no request free and none outstanding, all of them wait. */
  lemma SomeWait(c: Ctrl, i: nat)
    requires C.Inv(c) && i in c.sqs && c.sqs[i].reqList == [] && c.sqs[i].outReqList == []
    ensures c.sqs[i].cqid in c.cqs && c.cqs[c.sqs[i].cqid].reqList != []
  {
    C.RequestInOnePlace(c, i, 0);
    assert Indices([]) == [];
    assert C.InOnePlace(c, i, 0);
    assert C.Waiting(c, i) != [];
  }

  /** Every queue that has commands to fetch may fetch. */
  predicate Served(j: Joint) {
    forall i :: i in j.c.sqs && i in j.s.sqs ==> Fed(j.c.sqs[i], j.s.sqs[i])
  }

  predicate Fed(q: SQueue, r: Rings.SqRing) { q.arbBurst > 0 || |r.fetched| == |r.submitted| }

  lemma FedOrEmpty(j: Joint, i: nat)
    requires JointInv(j) && Served(j) && i in j.c.sqs
    ensures j.c.sqs[i].arbBurst > 0 || SqEmpty(j.c.sqs[i])
  {
    hide Rings.CqInv, AwakeBut, Good, Rings.HeadsRight;
    assert SqJoined(j.c.sqs[i], j.s.sqs[i]) && Fed(j.c.sqs[i], j.s.sqs[i]);
    Rings.SqEmptyExact(j.s.sqs[i]);
  }

  lemma SqMoves(j: Joint, i: nat) returns (e: Event)
    requires JointInv(j) && Served(j) && i in j.c.sqs && (j.c.sqs[i].timer || j.c.sqs[i].outReqList != [])
    ensures Move(j, e) && Falls(j, Step(j, e))
  {
    hide C.Inv, Matched, Rings.Shaped, Falls, FetchBurst, IoEnd, Served;
    MatchedShaped(j);
    FedOrEmpty(j, i);
    if j.c.sqs[i].outReqList != [] {
      e := IoDone(i, 0, true);
      IoDoneFalls(j, i, 0, true);
    } else if SqEmpty(j.c.sqs[i]) || j.c.sqs[i].reqList != [] {
      e := SqTimer(i, ALL_LATER);
      SqTimerFalls(j, i, ALL_LATER);
    } else {
      SomeWait(j.c, i);
      e := WaitingMoves(j, j.c.sqs[i].cqid);
    }
  }

  /** As long as anything is left to do, some move brings the end nearer. */
  lemma MoveExists(j: Joint) returns (e: Event)
    requires JointInv(j) && Served(j) && Rings.Shaped(j.s) && !Still(j)
    ensures Move(j, e) && Falls(j, Step(j, e))
  {
    if i :| i in j.c.sqs && (j.c.sqs[i].timer || j.c.sqs[i].outReqList != []) {
      e := SqMoves(j, i);
    } else if k :| k in j.c.cqs && j.c.cqs[k].timer {
      e := CqTimer(k);
      CqTimerFalls(j, k);
    } else if i :| i in j.s.sqs && j.s.sqs[i].rung != |j.s.sqs[i].submitted| {
      e := TailBell(i);
      assert Rings.SqInv(j.s.sqs[i]);
      TailBellFalls(j, i);
    } else if k :| k in j.s.cqs && j.s.cqs[k].rung != |j.s.cqs[k].consumed| {
      e := HeadBell(k);
      assert Rings.CqInv(j.s.cqs[k]);
      HeadBellFalls(j, k);
    } else {
      var k :| k in j.s.cqs && Rings.CqShaped(j.s.cqs[k]) && Rings.EntryReady(j.s.cqs[k]);
      e := Consume(k);
      ConsumeFalls(j, k);
    }
  }

  /** And when nothing is left to do no move changes anything. */
  lemma StillStays(j: Joint, e: Event)
    requires JointInv(j) && Rings.Shaped(j.s) && Still(j) && Move(j, e)
    ensures Step(j, e) == j
  {
    hide C.Inv, Matched, FetchBurst, PostBurst, IoEnd, TailDoorbell, HeadDoorbell;
  }

  // ---------------------------------------------------------------------------
  // Queues that are not served
  // ---------------------------------------------------------------------------

  /** No command is new, and only queue `i` may have fetched some. */
  predicate Feeds(s: Rings.System, t: Rings.System, i: nat, some: bool) {
    && t.sqs.Keys == s.sqs.Keys
    && (forall o :: o in s.sqs ==> t.sqs[o].submitted == s.sqs[o].submitted)
    && (forall o :: o in s.sqs && (o != i || !some) ==> t.sqs[o].fetched == s.sqs[o].fetched)
  }

  lemma FeedsTwice(s: Rings.System, t: Rings.System, u: Rings.System, i: nat, some: bool)
    requires Feeds(s, t, i, some) && Feeds(t, u, i, some)
    ensures Feeds(s, u, i, some)
  {
  }

  lemma NothingFed(s: Rings.System, i: nat, some: bool)
    ensures Feeds(s, s, i, some)
  {
  }

  lemma FetchTurnFeeds(j: Joint, i: nat, a: Answer)
    requires Good(j.c) && AwakeBut(j.c, {i}) && Matched(j) && i in j.c.sqs && j.c.sqs[i].reqList != []
    requires !SqEmpty(j.c.sqs[i])
    ensures Feeds(j.s, FetchTurn(j, i, a).s, i, true)
  {
    hide Good, AwakeBut, Matched, FetchTurn;
    FetchTurnOnly(j, i, a);
    var t := FetchTurn(j, i, a);
    forall o | o in j.s.sqs && o != i ensures SameSqRing(j.s.sqs[o], t.s.sqs[o]) { }
  }

  lemma {:induction false} FetchTurnsFeed(j: Joint, i: nat, answers: nat -> Answer, n: nat, budget: nat)
    requires Good(j.c) && AwakeBut(j.c, {i}) && Matched(j) && i in j.c.sqs
    ensures Feeds(j.s, FetchTurns(j, i, answers, n, budget).s, i, budget > 0)
    decreases budget
  {
    hide Good, AwakeBut, Matched, FetchTurn, Feeds;
    if budget == 0 || SqEmpty(j.c.sqs[i]) || j.c.sqs[i].reqList == [] {
      NothingFed(j.s, i, budget > 0);
    } else {
      FetchTurnKeeps(j, i, answers(n));
      FetchTurnFeeds(j, i, answers(n));
      var t := FetchTurn(j, i, answers(n));
      FetchTurnsFeed(t, i, answers, n + 1, budget - 1);
      var u := FetchTurns(t, i, answers, n + 1, budget - 1);
      FeedsWeaker(t.s, u.s, i, budget - 1 > 0);
      FeedsTwice(j.s, t.s, u.s, i, true);
    }
  }

  lemma FeedsWeaker(s: Rings.System, t: Rings.System, i: nat, some: bool)
    requires Feeds(s, t, i, some)
    ensures Feeds(s, t, i, true)
  {
  }

  lemma {:induction false} PostTurnsFeed(j: Joint, k: nat)
    requires Structured(j.c) && Matched(j) && k in j.c.cqs
    ensures PostTurns(j, k).s.sqs == j.s.sqs
    decreases if k in j.c.cqs then |j.c.cqs[k].reqList| else 0
  {
    hide Structured, Matched, CqFull, PostTurn;
    if !(j.c.cqs[k].reqList == [] || CqFull(j.c.cqs[k])) {
      PostTurnKeeps(j, k);
      PostTurnOnly(j, k);
      PostTurnsFeed(PostTurn(j, k), k);
    }
  }

  /** No command is new, and a queue with a burst of zero has fetched nothing. */
  predicate FeedsOnly(j: Joint, t: Joint) {
    && t.s.sqs.Keys == j.s.sqs.Keys && SameBursts(j.c, t.c)
    && (forall i :: i in j.s.sqs ==> t.s.sqs[i].submitted == j.s.sqs[i].submitted)
    && (forall i :: i in j.c.sqs && i in j.s.sqs && j.c.sqs[i].arbBurst == 0 ==>
          t.s.sqs[i].fetched == j.s.sqs[i].fetched)
  }

  lemma BurstFeeds(j: Joint, i: nat, answers: nat -> Answer)
    requires JointInv(j) && i in j.c.sqs
    ensures Feeds(j.s, FetchBurst(j, i, answers).s, i, j.c.sqs[i].arbBurst > 0)
  {
    hide Good, CqAwake, Matched, FetchTurns, Feeds;
    TimerFired(j, i);
    FetchTurnsFeed(j.(c := C.SetTimer(j.c, i, false)), i, answers, 0, j.c.sqs[i].arbBurst);
  }

  lemma BellFeeds(s: Rings.System, e: Rings.Event)
    requires Rings.Shaped(s) && (e.RingTail? || e.RingHead? || e.Consume?)
    ensures Feeds(s, Rings.Step(s, e), 0, false)
  {
  }

  lemma MoveFeeds(j: Joint, e: Event)
    requires JointInv(j) && Move(j, e)
    ensures FeedsOnly(j, Step(j, e))
  {
    hide C.Inv, Matched, Rings.Shaped, Rings.Step, FetchBurst, PostTurns, C.RingTail, C.RingHead, Work, Armed;
    MatchedShaped(j);
    MoveFalls(j, e);
    NothingFed(j.s, 0, false);
    match e
    case Consume(k) => BellFeeds(j.s, Rings.Consume(k));
    case TailBell(i) => BellFeeds(j.s, Rings.RingTail(i));
    case HeadBell(k) => BellFeeds(j.s, Rings.RingHead(k));
    case SqTimer(i, answers) => if i in j.c.sqs && j.c.sqs[i].timer { BurstFeeds(j, i, answers); }
    case CqTimer(k) => if k in j.c.cqs && j.c.cqs[k].timer {
      TimerCleared(j, k);
      PostTurnsFeed(j.(c := C.ClearCqTimer(j.c, k)), k);
    }
    case IoDone(_, _, _) =>
    case _ =>
  }

  lemma ServedStays(j: Joint, t: Joint)
    requires FeedsOnly(j, t) && JointInv(j) && j.c.sqs.Keys == j.s.sqs.Keys
    ensures Served(j) <==> Served(t)
  {
    hide C.Inv, Matched;
    if Served(t) {
      forall i | i in j.c.sqs && i in j.s.sqs ensures Fed(j.c.sqs[i], j.s.sqs[i]) {
        assert Fed(t.c.sqs[i], t.s.sqs[i]);
      }
    }
    if Served(j) {
      forall i | i in t.c.sqs && i in t.s.sqs ensures Fed(t.c.sqs[i], t.s.sqs[i]) {
        assert Fed(j.c.sqs[i], j.s.sqs[i]);
      }
    }
  }

  /** At rest every queue has been served. */
  lemma StillServed(j: Joint)
    requires JointInv(j) && Rings.Shaped(j.s) && Still(j)
    ensures Served(j)
  {
    forall i | i in j.c.sqs && i in j.s.sqs ensures Fed(j.c.sqs[i], j.s.sqs[i]) {
      StillDrained(j, i);
      FetchedSame(j, i);
    }
  }

  lemma FetchedSame(j: Joint, i: nat)
    requires Matched(j) && i in j.c.sqs
    ensures i in j.s.sqs && |j.c.sqs[i].fetched| == |j.s.sqs[i].fetched|
  {
    KeysMatch(j);
    assert SqJoined(j.c.sqs[i], j.s.sqs[i]);
  }

  // ---------------------------------------------------------------------------
  // The end
  // ---------------------------------------------------------------------------

  /** Moves each of which changes something. */
  ghost predicate RealMoves(j: Joint, es: seq<Event>)
    requires JointInv(j)
    decreases |es|
  {
    es != [] ==>
      && Move(j, es[0]) && Step(j, es[0]) != j
      && JointInv(Step(j, es[0])) && RealMoves(Step(j, es[0]), es[1..])
  }

  /** No move changes anything. */
  ghost predicate Ended(j: Joint)
    requires JointInv(j)
  {
    forall e :: Move(j, e) ==> Step(j, e) == j
  }

  lemma MeasureIsNatural(j: Joint)
    requires JointInv(j)
    ensures Measure(j) >= 0
  {
    hide C.Inv, Matched, Work, Armed;
    WorkIsNatural(j);
    ArmedBounds(j.c);
  }

  /** However the moves are chosen, there are only so many. */
  lemma {:induction false} MovesAreBounded(j: Joint, es: seq<Event>)
    requires JointInv(j) && RealMoves(j, es)
    ensures JointInv(Run(j, es)) && |es| + Measure(Run(j, es)) <= Measure(j) && (Served(j) <==> Served(Run(j, es)))
    decreases |es|
  {
    hide JointInv, Served, Move, Step, Falls, FeedsOnly, Measure;
    if es != [] {
      var t := Step(j, es[0]);
      MoveFalls(j, es[0]);
      FallsMeasured(j, t);
      MoveFeeds(j, es[0]);
      JointKeys(j);
      ServedStays(j, t);
      MovesAreBounded(t, es[1..]);
    }
  }

  lemma JointKeys(j: Joint)
    requires JointInv(j)
    ensures j.c.sqs.Keys == j.s.sqs.Keys && Rings.Shaped(j.s)
  {
    hide Matched, C.Inv;
    KeysMatch(j);
    MatchedShaped(j);
  }

  /** Nothing is left to do exactly when no move changes anything and no queue with commands
      to fetch has a burst of zero. */
  lemma StillExactly(j: Joint)
    requires JointInv(j)
    ensures Rings.Shaped(j.s) && (Still(j) <==> Ended(j) && Served(j))
  {
    hide Served, Move, Step, Still, Matched, C.Inv;
    JointKeys(j);
    if Still(j) {
      StillServed(j);
      forall e | Move(j, e) ensures Step(j, e) == j { StillStays(j, e); }
    } else if Ended(j) && Served(j) {
      var e := MoveExists(j);
      FallsMeasured(j, Step(j, e));
      assert false;
    }
  }

  /** There is always a way to the end. */
  lemma {:induction false} EndReached(j: Joint) returns (es: seq<Event>)
    requires JointInv(j)
    ensures RealMoves(j, es) && JointInv(Run(j, es)) && Ended(Run(j, es))
    decreases Measure(j)
  {
    hide JointInv, Served, Move, Step, Falls, Measure;
    if Ended(j) {
      es := [];
    } else {
      var e :| Move(j, e) && Step(j, e) != j;
      var t := Step(j, e);
      MoveFalls(j, e);
      StepKeeps(j, e);
      FallsMeasured(j, t);
      MeasureIsNatural(j);
      MeasureIsNatural(t);
      var rest := EndReached(t);
      es := [e] + rest;
      assert es[1..] == rest;
    }
  }

  /** From any state that a run has led to: however the moves are chosen they come to an
      end, after at most as many as the measure says; and at the end the host has taken the
      completion of every command it submitted, exactly when no queue is left with commands
      to fetch and a burst of zero. */
  lemma EveryCommandIsAnswered(p: Params, es: seq<Event>, moves: seq<Event>)
    ensures JointInv(Nothing(p)) && JointInv(Run(Nothing(p), es))
    ensures
      var j := Run(Nothing(p), es);
      RealMoves(j, moves) ==>
        && |moves| <= Measure(j) && JointInv(Run(j, moves))
        && (Ended(Run(j, moves)) ==> (AllDone(Run(j, moves)) <==> Served(j)))
  {
    hide JointInv, Served, Ended, Run, RealMoves, AllDone, Measure;
    NothingInv(p);
    RunKeeps(Nothing(p), es);
    var j := Run(Nothing(p), es);
    if RealMoves(j, moves) {
      MovesAreBounded(j, moves);
      MeasureIsNatural(Run(j, moves));
      if Ended(Run(j, moves)) {
        DoneExactly(Run(j, moves));
      }
    }
  }

  /** Every command has been answered to the host, once. */
  ghost predicate AllDone(j: Joint) {
    forall i :: i in j.c.sqs ==>
      j.c.sqs[i].cqid in j.s.cqs && i in j.s.sqs && TakenOnce(j, i) && AllTaken(j, i)
  }

  lemma DoneExactly(j: Joint)
    requires JointInv(j) && Ended(j)
    ensures AllDone(j) <==> Served(j)
  {
    hide C.Inv, Matched, Ended, Still, TakenOnce, Served;
    StillExactly(j);
    if Served(j) {
      forall i | i in j.c.sqs ensures j.c.sqs[i].cqid in j.s.cqs && i in j.s.sqs && TakenOnce(j, i) && AllTaken(j, i) {
        InvTakenOnce(j, i);
        StillAllTaken(j, i);
      }
    }
    if AllDone(j) {
      DoneServed(j);
    }
  }

  lemma DoneServed(j: Joint)
    requires JointInv(j) && AllDone(j)
    ensures Served(j)
  {
    hide C.Inv, Matched, TakenOnce;
    forall i | i in j.c.sqs && i in j.s.sqs ensures Fed(j.c.sqs[i], j.s.sqs[i]) {
      assert AllTaken(j, i);
      AnsweredFetched(j, i);
    }
  }

  /** No more answers than commands fetched. */
  lemma AnsweredFetched(j: Joint, i: nat)
    requires JointInv(j) && i in j.c.sqs
    ensures i in j.s.sqs && |j.c.sqs[i].answered| <= |j.s.sqs[i].fetched| <= |j.s.sqs[i].submitted|
  {
    hide Good, CqAwake, AllAnswersPosted, Rings.CqInv, Rings.HeadsRight;
    FetchedSame(j, i);
    assert Rings.SqInv(j.s.sqs[i]);
    AnswersOfFetched(j.c, i);
  }

  lemma AnswersOfFetched(c: Ctrl, i: nat)
    requires C.Inv(c) && i in c.sqs
    ensures |c.sqs[i].answered| <= |c.sqs[i].fetched|
  {
    HeldQueue(c, i);
    var q := c.sqs[i];
    hide Good, AwakeBut;
    assert |multiset(Serials(q.answered))| <= |multiset(Upto(|q.fetched|))|;
  }
}
