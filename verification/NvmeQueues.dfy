/** The controller's queues: request lists, timers, doorbells, and the commands that create
    and delete queues.  The host is arbitrary here; what it must respect for the rings
    themselves is the subject of `NvmeRings`. */
module NvmeQueues {
  import Gray
  import opened Modular
  import Rings = NvmeRings

  type RingSize = n: nat | n >= 2 witness 2

  /** One element of a queue's io_req array, with the completion it will carry.  `serial`
      numbers the commands its queue has fetched. */
  datatype Request = Request(sqid: nat, index: nat, cid: nat, status: nat, serial: nat)

  /** How a command ended: by its I/O, or at once with a status. */
  datatype Outcome = IoEnded(ok: bool) | AtOnce(status: nat)

  /** The status that reports an outcome: success, or an internal error of the device. */
  function StatusOf(o: Outcome): nat {
    match o
    case IoEnded(ok) => if ok then 0x0 else 0x6
    case AtOnce(status) => status
  }

  datatype SQueue = SQueue(
    cqid: nat, size: RingSize, head: nat, tail: nat, arbBurst: nat,
    reqList: seq<Request>, outReqList: seq<Request>, timer: bool,
    fetched: seq<nat>,           // history: command identifiers, in the order fetched
    answered: seq<Request>,      // history: requests whose completion was posted
    outcomes: map<nat, Outcome>) // history: how the commands fetched have ended, by serial

  datatype CQueue = CQueue(
    size: RingSize, head: nat, tail: nat, phase: bool,
    reqList: seq<Request>, sqList: seq<nat>, timer: bool,
    posted: seq<Rings.Cqe>)      // history: entries written to the ring, in order

  type PageSize = n: nat | n >= 1 witness 4096

  /** `mqes` and `contigRequired` are fields of the capabilities register; `doorbell` is the
      distance between doorbells. */
  datatype Params = Params(numQueues: nat, mqes: nat, contigRequired: bool, pageSize: PageSize, doorbell: PageSize)

  /** `broken` records that the code has stored a queue outside its arrays, or given one
      the size zero; what it does from then on is not modelled. */
  datatype Ctrl = Ctrl(params: Params, sqs: map<nat, SQueue>, cqs: map<nat, CQueue>, broken: bool)

  const SUCCESS: nat := 0x0
  const INVALID_FIELD: nat := 0x2
  const INTERNAL_DEV_ERROR: nat := 0x6
  const INVALID_CQID: nat := 0x100
  const INVALID_QID: nat := 0x101
  const MAX_QSIZE_EXCEEDED: nat := 0x102
  const INVALID_IRQ_VECTOR: nat := 0x108
  const INVALID_QUEUE_DEL: nat := 0x10C
  const DNR: nat := 0x4000

  // ---------------------------------------------------------------------------
  // Moving requests
  // ---------------------------------------------------------------------------

  predicate SqEmpty(q: SQueue) { q.head == q.tail }

  predicate CqFull(q: CQueue) { Wrap(q.tail + 1, q.size) == q.head }

  /** One command is read from the ring and given the first free request. */
  function Start(q: SQueue, cid: nat): SQueue
    requires q.reqList != []
  {
    var r := q.reqList[0].(cid := cid, serial := |q.fetched|);
    q.(head := Wrap(q.head + 1, q.size),
       reqList := q.reqList[1..], outReqList := q.outReqList + [r],
       fetched := q.fetched + [cid])
  }

  /** The `k`-th outstanding request of queue `i` is finished, with outcome `o`, and waits
      for its completion to be posted. */
  function Complete(c: Ctrl, i: nat, k: nat, status: nat, o: Outcome): Ctrl
    requires i in c.sqs && c.sqs[i].cqid in c.cqs && k < |c.sqs[i].outReqList|
  {
    var q := c.sqs[i];
    var cq := c.cqs[q.cqid];
    var r := q.outReqList[k].(status := status);
    c.(sqs := c.sqs[i := q.(outReqList := q.outReqList[..k] + q.outReqList[k + 1..],
                            outcomes := q.outcomes[r.serial := o])],
       cqs := c.cqs[q.cqid := cq.(reqList := cq.reqList + [r], timer := true)])
  }

  /** The first waiting completion is written and its request is free again. */
  function PostOne(c: Ctrl, j: nat): Ctrl
    requires j in c.cqs && c.cqs[j].reqList != [] && c.cqs[j].reqList[0].sqid in c.sqs
  {
    var cq := c.cqs[j];
    var r := cq.reqList[0];
    var q := c.sqs[r.sqid];
    var wraps := cq.tail + 1 >= cq.size;
    c.(sqs := c.sqs[r.sqid := q.(reqList := q.reqList + [r], answered := q.answered + [r])],
       cqs := c.cqs[j := cq.(reqList := cq.reqList[1..],
                             tail := if wraps then 0 else cq.tail + 1,
                             phase := if wraps then !cq.phase else cq.phase,
                             posted := cq.posted + [Rings.Cqe(r.cid, r.sqid, q.head, r.status, cq.phase)])])
  }

  predicate Postable(c: Ctrl, j: nat) {
    j in c.cqs && forall k :: 0 <= k < |c.cqs[j].reqList| ==> c.cqs[j].reqList[k].sqid in c.sqs
  }

  /** Completions are posted until none waits or the ring is full. */
  function PostAll(c: Ctrl, j: nat): Ctrl
    requires Postable(c, j)
    decreases if j in c.cqs then |c.cqs[j].reqList| else 0
  {
    var cq := c.cqs[j];
    if cq.reqList == [] || CqFull(cq) then c else PostAll(PostOne(c, j), j)
  }

  // ---------------------------------------------------------------------------
  // Creating and deleting queues
  // ---------------------------------------------------------------------------

  function FreeRequests(sqid: nat, size: nat): seq<Request> {
    seq(size, (k: nat) => Request(sqid, k, 0, 0, 0))
  }

  function InitSq(sqid: nat, cqid: nat, size: RingSize, burst: nat): SQueue {
    SQueue(cqid, size, 0, 0, burst, FreeRequests(sqid, size), [], false, [], [], map[])
  }

  function InitCq(size: RingSize): CQueue {
    CQueue(size, 0, 0, true, [], [], false, [])
  }

  /** A queue is linked into its completion queue's list as it is created. */
  function AddSq(c: Ctrl, sqid: nat, cqid: nat, size: RingSize, burst: nat): Ctrl
    requires cqid in c.cqs
  {
    var cq := c.cqs[cqid];
    c.(sqs := c.sqs[sqid := InitSq(sqid, cqid, size, burst)],
       cqs := c.cqs[cqid := cq.(sqList := cq.sqList + [sqid])])
  }

  function AddCq(c: Ctrl, cqid: nat, size: RingSize): Ctrl {
    c.(cqs := c.cqs[cqid := InitCq(size)])
  }

  type ThreeBits = n: nat | n < 8

  type Byte = n: nat | n < 256

  /** A queue's priority, with the field of the arbitration feature that goes with it. */
  datatype Share = Urgent(burst: ThreeBits) | Weighted(weight: Byte)

  /** Commands fetched in one go, kept in eight bits. */
  function ArbBurst(s: Share): nat {
    match s
    case Urgent(burst) => Gray.Pow2(burst) % 256
    case Weighted(weight) => (weight + 1) % 256
  }

  /** A weight counts one more command than it says, but for the highest; an urgent queue
      fetches a power of two. */
  lemma BurstValues(weight: Byte, burst: ThreeBits)
    ensures ArbBurst(Weighted(weight)) == if weight == 255 then 0 else weight + 1
    ensures ArbBurst(Urgent(0)) == 1
    ensures burst < 7 ==> ArbBurst(Urgent(burst + 1)) == 2 * ArbBurst(Urgent(burst))
  {
    assert Gray.Pow2(6) == 64 && Gray.Pow2(3) == 8;
  }

  lemma NoBurst(s: Share)
    ensures ArbBurst(s) == 0 <==> s == Weighted(255)
  {
    if s.Urgent? {
      assert Gray.Pow2(7) == 128 && Gray.Pow2(3) == 8 && Gray.Pow2(5) == 32;
    }
  }

  /** The admin commands on queues.  `prp1` is the ring's address, `listOk` whether the PRP
      list of a ring that is not contiguous could be read, `done` the requests of a deleted
      queue whose I/O had succeeded before it could be cancelled. */
  datatype AdminOp =
    | CreateSq(sqid: nat, cqid: nat, qsize: nat, prp1: nat, contiguous: bool, listOk: bool, share: Share)
    | CreateCq(cqid: nat, vector: nat, qsize: nat, prp1: nat, contiguous: bool, listOk: bool)
    | DeleteSq(qid: nat, done: set<nat>)
    | DeleteCq(qid: nat)
    | Other

  /** How a command is answered: at once with a status, or later by its I/O. */
  datatype Answer = Now(status: nat) | Later

  predicate ValidSq(c: Ctrl, i: nat) { i < c.params.numQueues && i in c.sqs }

  predicate ValidCq(c: Ctrl, j: nat) { j < c.params.numQueues && j in c.cqs }

  /** The queue has a place in the controller's arrays, and its size one in sixteen bits.
      The code checks neither. */
  predicate Fits(p: Params, id: nat, qsize: nat) { id < p.numQueues && qsize < 0xFFFF }

  /** The PRP list of a ring that is not contiguous is accepted.  A size that comes out as
      zero asks for no entries, and an empty list is refused. */
  predicate ListTaken(op: AdminOp)
    requires op.CreateSq? || op.CreateCq?
  {
    op.listOk && op.qsize < 0xFFFF
  }

  function DoCreateSq(c: Ctrl, op: AdminOp): (Ctrl, nat)
    requires op.CreateSq?
  {
    var p := c.params;
    if op.cqid == 0 || !ValidCq(c, op.cqid) then (c, INVALID_CQID + DNR)
    else if op.sqid == 0 || ValidSq(c, op.sqid) then (c, INVALID_QID + DNR)
    else if op.qsize == 0 || op.qsize > p.mqes then (c, MAX_QSIZE_EXCEEDED + DNR)
    else if op.prp1 == 0 || Wrap(op.prp1, p.pageSize) != 0 then (c, INVALID_FIELD + DNR)
    else if !op.contiguous && p.contigRequired then (c, INVALID_FIELD + DNR)
    else if !op.contiguous && !ListTaken(op) then (c, INVALID_FIELD + DNR)
    else if !Fits(p, op.sqid, op.qsize) then (c.(broken := true), SUCCESS)
    else (AddSq(c, op.sqid, op.cqid, op.qsize + 1, ArbBurst(op.share)), SUCCESS)
  }

  /** The result of initialising the ring is not looked at: an unreadable PRP list is
      reported as success although no queue appears. */
  function DoCreateCq(c: Ctrl, op: AdminOp): (Ctrl, nat)
    requires op.CreateCq?
  {
    var p := c.params;
    if op.cqid == 0 || ValidCq(c, op.cqid) then (c, INVALID_CQID + DNR)
    else if op.qsize == 0 || op.qsize > p.mqes then (c, MAX_QSIZE_EXCEEDED + DNR)
    else if op.prp1 == 0 then (c, INVALID_FIELD + DNR)
    else if op.vector > p.numQueues then (c, INVALID_IRQ_VECTOR + DNR)
    else if !op.contiguous && p.contigRequired then (c, INVALID_FIELD + DNR)
    else if !op.contiguous && !ListTaken(op) then (c, SUCCESS)
    else if !Fits(p, op.cqid, op.qsize) then (c.(broken := true), SUCCESS)
    else (AddCq(c, op.cqid, op.qsize + 1), SUCCESS)
  }

  function DoDeleteCq(c: Ctrl, qid: nat): (Ctrl, nat) {
    if qid == 0 || !ValidCq(c, qid) then (c, INVALID_CQID + DNR)
    else if c.cqs[qid].sqList != [] then (c, INVALID_QUEUE_DEL)
    else (c.(cqs := c.cqs - {qid}), SUCCESS)
  }

  function CancelOne(c: Ctrl, i: nat, done: set<nat>): Ctrl
    requires i in c.sqs && c.sqs[i].cqid in c.cqs && c.sqs[i].outReqList != []
  {
    var finished := c.sqs[i].outReqList[0].index in done;
    Complete(c, i, 0, if finished then SUCCESS else INTERNAL_DEV_ERROR, IoEnded(finished))
  }

  /** Every outstanding request of a queue is cancelled, and calls back. */
  function CancelAll(c: Ctrl, i: nat, done: set<nat>): Ctrl
    requires i in c.sqs && c.sqs[i].cqid in c.cqs
    decreases if i in c.sqs then |c.sqs[i].outReqList| else 0
  {
    if c.sqs[i].outReqList == [] then c else CancelAll(CancelOne(c, i, done), i, done)
  }

  function WithoutId(l: seq<nat>, i: nat): seq<nat> {
    if l == [] then [] else if l[0] == i then l[1..] else [l[0]] + WithoutId(l[1..], i)
  }

  /** The requests of queue `i` in a list, and the others. */
  function Of(l: seq<Request>, i: nat): seq<Request> {
    if l == [] then [] else if l[0].sqid == i then [l[0]] + Of(l[1..], i) else Of(l[1..], i)
  }

  function NotOf(l: seq<Request>, i: nat): seq<Request> {
    if l == [] then [] else if l[0].sqid == i then NotOf(l[1..], i) else [l[0]] + NotOf(l[1..], i)
  }

  function Unlist(c: Ctrl, i: nat, j: nat): Ctrl
    requires j in c.cqs
  {
    c.(cqs := c.cqs[j := c.cqs[j].(sqList := WithoutId(c.cqs[j].sqList, i))])
  }

  /** The waiting requests of a queue go back to it, and the queue is freed. */
  function FreeSq(c: Ctrl, i: nat, j: nat): Ctrl
    requires j in c.cqs
  {
    c.(sqs := c.sqs - {i}, cqs := c.cqs[j := c.cqs[j].(reqList := NotOf(c.cqs[j].reqList, i))])
  }

  // ---------------------------------------------------------------------------
  // What holds of the lists
  // ---------------------------------------------------------------------------

  function Upto(n: nat): seq<nat> {
    seq(n, (k: nat) => k)
  }

  function Indices(l: seq<Request>): (s: seq<nat>)
    ensures |s| == |l|
  {
    seq(|l|, k requires 0 <= k < |l| => l[k].index)
  }

  function Serials(l: seq<Request>): (s: seq<nat>)
    ensures |s| == |l|
  {
    seq(|l|, k requires 0 <= k < |l| => l[k].serial)
  }

  predicate AllOf(l: seq<Request>, i: nat) {
    forall k :: 0 <= k < |l| ==> l[k].sqid == i
  }

  /** Requests that carry a fetched command carry its identifier. */
  predicate Carry(l: seq<Request>, fetched: seq<nat>) {
    forall k :: 0 <= k < |l| ==> l[k].serial < |fetched| && l[k].cid == fetched[l[k].serial]
  }

  /** The free, outstanding and waiting requests of a queue are a permutation of its
      request array; the outstanding, waiting and answered ones are a permutation of the
      commands fetched, each with its own identifier. */
  ghost predicate Conserved(q: SQueue, waiting: seq<Request>) {
    && multiset(Indices(q.reqList)) + multiset(Indices(q.outReqList)) + multiset(Indices(waiting))
       == multiset(Upto(q.size))
    && multiset(Serials(q.outReqList)) + multiset(Serials(waiting)) + multiset(Serials(q.answered))
       == multiset(Upto(|q.fetched|))
    && Carry(q.outReqList, q.fetched) && Carry(waiting, q.fetched) && Carry(q.answered, q.fetched)
  }

  ghost predicate SqGood(q: SQueue, i: nat, waiting: seq<Request>) {
    && q.head < q.size && q.tail < q.size
    && AllOf(q.reqList, i) && AllOf(q.outReqList, i) && AllOf(q.answered, i)
    && Conserved(q, waiting) && Told(q, waiting)
  }

  /** These requests have the status of what became of their commands. */
  predicate Tell(l: seq<Request>, outcomes: map<nat, Outcome>) {
    forall k :: 0 <= k < |l| ==> l[k].serial in outcomes && l[k].status == StatusOf(outcomes[l[k].serial])
  }

  /** Outstanding commands have no outcome yet; waiting and answered ones tell theirs. */
  predicate Told(q: SQueue, waiting: seq<Request>) {
    && (forall k :: 0 <= k < |q.outReqList| ==> q.outReqList[k].serial !in q.outcomes)
    && (forall n :: n in q.outcomes ==> n < |q.fetched|)
    && Tell(waiting, q.outcomes) && Tell(q.answered, q.outcomes)
  }

  lemma ViewsOfJoin(a: seq<Request>, b: seq<Request>)
    ensures Indices(a + b) == Indices(a) + Indices(b) && Serials(a + b) == Serials(a) + Serials(b)
  {
  }

  /** Taking out the `k`-th request. */
  lemma ViewsWithout(l: seq<Request>, k: nat)
    requires k < |l|
    ensures multiset(Indices(l)) == multiset(Indices(l[..k] + l[k + 1..])) + multiset{l[k].index}
    ensures multiset(Serials(l)) == multiset(Serials(l[..k] + l[k + 1..])) + multiset{l[k].serial}
  {
    var a, b := l[..k], l[k + 1..];
    assert l == a + ([l[k]] + b);
    ViewsOfJoin(a, [l[k]] + b);
    ViewsOfJoin([l[k]], b);
    ViewsOfJoin(a, b);
    assert Indices([l[k]]) == [l[k].index] && Serials([l[k]]) == [l[k].serial];
  }

  lemma ViewsAppend(l: seq<Request>, r: Request)
    ensures multiset(Indices(l + [r])) == multiset(Indices(l)) + multiset{r.index}
    ensures multiset(Serials(l + [r])) == multiset(Serials(l)) + multiset{r.serial}
  {
    ViewsOfJoin(l, [r]);
    assert Indices([r]) == [r.index] && Serials([r]) == [r.serial];
  }

  lemma StartKeeps(q: SQueue, i: nat, waiting: seq<Request>, cid: nat)
    requires SqGood(q, i, waiting) && q.reqList != []
    ensures SqGood(Start(q, cid), i, waiting)
  {
    hide Told, Indices, Serials, Upto, Carry;
    var t := Start(q, cid);
    var r := t.outReqList[|q.outReqList|];
    StartCarries(q, waiting, cid);
    StartTells(q, waiting, cid);
    ViewsWithout(q.reqList, 0);
    assert q.reqList[..0] + q.reqList[1..] == t.reqList;
    ViewsAppend(q.outReqList, r);
    UptoGrows(|q.fetched|);
  }

  lemma StartCarries(q: SQueue, waiting: seq<Request>, cid: nat)
    requires q.reqList != []
    requires Carry(q.outReqList, q.fetched) && Carry(waiting, q.fetched) && Carry(q.answered, q.fetched)
    ensures
      var t := Start(q, cid);
      Carry(t.outReqList, t.fetched) && Carry(waiting, t.fetched) && Carry(t.answered, t.fetched)
  {
  }

  lemma StartTells(q: SQueue, waiting: seq<Request>, cid: nat)
    requires q.reqList != [] && Told(q, waiting)
    ensures Told(Start(q, cid), waiting)
  {
    hide StatusOf;
  }

  lemma UptoGrows(n: nat)
    ensures multiset(Upto(n + 1)) == multiset(Upto(n)) + multiset{n}
  {
    assert Upto(n + 1) == Upto(n) + [n];
  }

  lemma {:induction false} UptoOnce(n: nat, x: nat)
    ensures multiset(Upto(n))[x] <= 1
  {
    if n == 0 {
      assert Upto(0) == [];
    } else {
      UptoOnce(n - 1, x);
      UptoGrows(n - 1);
      if x >= n - 1 { UptoBelow(n - 1, x); }
    }
  }

  lemma UptoBelow(n: nat, x: nat)
    requires x >= n
    ensures multiset(Upto(n))[x] == 0
  {
    assert x !in Upto(n);
  }

  /** No two outstanding requests carry the same command. */
  lemma OutDistinct(q: SQueue, waiting: seq<Request>, k: nat)
    requires Conserved(q, waiting) && k < |q.outReqList|
    ensures
      var rest := q.outReqList[..k] + q.outReqList[k + 1..];
      forall j :: 0 <= j < |rest| ==> rest[j].serial != q.outReqList[k].serial
  {
    hide Indices, Upto, Carry;
    var rest, x := q.outReqList[..k] + q.outReqList[k + 1..], q.outReqList[k].serial;
    ViewsWithout(q.outReqList, k);
    UptoOnce(|q.fetched|, x);
    forall j | 0 <= j < |rest| ensures rest[j].serial != x {
      assert Serials(rest)[j] in multiset(Serials(rest));
    }
  }

  lemma CompleteTells(q: SQueue, waiting: seq<Request>, k: nat, status: nat, o: Outcome)
    requires Conserved(q, waiting) && Told(q, waiting) && k < |q.outReqList| && status == StatusOf(o)
    requires q.outReqList[k].serial < |q.fetched|
    ensures
      var r := q.outReqList[k].(status := status);
      Told(q.(outReqList := q.outReqList[..k] + q.outReqList[k + 1..], outcomes := q.outcomes[r.serial := o]),
           waiting + [r])
  {
    hide Conserved, StatusOf;
    OutDistinct(q, waiting, k);
    var rest := q.outReqList[..k] + q.outReqList[k + 1..];
    forall j | 0 <= j < |rest| ensures rest[j].serial !in q.outcomes {
      assert rest[j] == q.outReqList[if j < k then j else j + 1];
    }
  }

  lemma CompleteKeepsQueue(q: SQueue, i: nat, waiting: seq<Request>, k: nat, status: nat, o: Outcome)
    requires SqGood(q, i, waiting) && k < |q.outReqList| && status == StatusOf(o)
    ensures
      var r := q.outReqList[k].(status := status);
      SqGood(q.(outReqList := q.outReqList[..k] + q.outReqList[k + 1..], outcomes := q.outcomes[r.serial := o]), i,
             waiting + [r])
  {
    hide Told, Indices, Serials, Upto, StatusOf;
    CompleteTells(q, waiting, k, status, o);
    ViewsWithout(q.outReqList, k);
    ViewsAppend(waiting, q.outReqList[k].(status := status));
  }

  lemma PostTells(q: SQueue, waiting: seq<Request>)
    requires Told(q, waiting) && waiting != []
    ensures Told(q.(reqList := q.reqList + [waiting[0]], answered := q.answered + [waiting[0]]), waiting[1..])
  {
    hide StatusOf;
  }

  lemma PostKeepsQueue(q: SQueue, i: nat, waiting: seq<Request>)
    requires SqGood(q, i, waiting) && waiting != [] && waiting[0].sqid == i
    ensures SqGood(q.(reqList := q.reqList + [waiting[0]], answered := q.answered + [waiting[0]]), i, waiting[1..])
  {
    hide Told, Indices, Serials, Upto;
    PostTells(q, waiting);
    ViewsWithout(waiting, 0);
    assert waiting[..0] + waiting[1..] == waiting[1..];
    ViewsAppend(q.reqList, waiting[0]);
    ViewsAppend(q.answered, waiting[0]);
  }

  lemma InitSqGood(sqid: nat, cqid: nat, size: RingSize, burst: nat)
    ensures SqGood(InitSq(sqid, cqid, size, burst), sqid, [])
  {
    assert Indices(FreeRequests(sqid, size)) == Upto(size);
    assert Indices([]) == [] && Serials([]) == [] && Upto(0) == [];
  }

  // ---------------------------------------------------------------------------
  // What holds of the references between queues
  // ---------------------------------------------------------------------------

  predicate Distinct(l: seq<nat>) {
    forall a, b :: 0 <= a < b < |l| ==> l[a] != l[b]
  }

  /** Completion queue `j`: the queues in its list are live and name it, each is listed
      once, and only their requests wait in it. */
  predicate CqGood(c: Ctrl, j: nat)
    requires j in c.cqs
  {
    var cq := c.cqs[j];
    && cq.head < cq.size && cq.tail < cq.size
    && Distinct(cq.sqList)
    && (forall a :: 0 <= a < |cq.sqList| ==> Names(c, cq.sqList[a], j))
    && (forall a :: 0 <= a < |cq.reqList| ==> Names(c, cq.reqList[a].sqid, j))
  }

  predicate Names(c: Ctrl, i: nat, j: nat) { i in c.sqs && c.sqs[i].cqid == j }

  /** Submission queue `i`, apart from being listed. */
  ghost predicate SqHeld(c: Ctrl, i: nat)
    requires i in c.sqs
  {
    && c.sqs[i].cqid in c.cqs
    && SqGood(c.sqs[i], i, Of(c.cqs[c.sqs[i].cqid].reqList, i))
  }

  predicate Listed(c: Ctrl, i: nat)
    requires i in c.sqs
  {
    c.sqs[i].cqid in c.cqs && i in c.cqs[c.sqs[i].cqid].sqList
  }

  /** Everything but that the queues outside `but` are listed. */
  ghost predicate Structured(c: Ctrl) {
    && (forall j :: j in c.cqs ==> CqGood(c, j))
    && (forall i :: i in c.sqs ==> SqHeld(c, i))
  }

  predicate ListedBut(c: Ctrl, but: set<nat>) {
    forall i :: i in c.sqs && i !in but ==> Listed(c, i)
  }

  lemma {:induction false} OfJoin(a: seq<Request>, b: seq<Request>, i: nat)
    ensures Of(a + b, i) == Of(a, i) + Of(b, i)
  {
    if a == [] {
      assert a + b == b;
    } else {
      OfJoin(a[1..], b, i);
      assert (a + b)[1..] == a[1..] + b;
    }
  }

  lemma {:induction false} OfNotOf(l: seq<Request>, i: nat, o: nat)
    ensures Of(NotOf(l, i), o) == if o == i then [] else Of(l, o)
    ensures forall k :: 0 <= k < |NotOf(l, i)| ==> NotOf(l, i)[k] in l && NotOf(l, i)[k].sqid != i
  {
    if l != [] {
      OfNotOf(l[1..], i, o);
      if l[0].sqid != i {
        assert NotOf(l, i)[1..] == NotOf(l[1..], i);
      }
    }
  }
}
