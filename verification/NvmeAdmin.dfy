/** Commands on queues are carried out: what the admin queue reads is done, and the status
    that answers it is that of what was done. */
module NvmeAdmin {
  import opened Modular
  import opened NvmeQueues
  import opened NvmeQueueRuns
  import C = NvmeController
  import Rings = NvmeRings

  // ---------------------------------------------------------------------------
  // What becomes of the commands of a deleted queue
  // ---------------------------------------------------------------------------

  /** Identifier, submission queue and status, of a request and of an entry of a ring. */
  function Report(r: Request): (nat, nat, nat) { (r.cid, r.sqid, r.status) }

  function EntryReport(e: Rings.Cqe): (nat, nat, nat) { (e.cid, e.sqid, e.status) }

  function Reports(l: seq<Request>): (r: seq<(nat, nat, nat)>)
    ensures |r| == |l|
  {
    seq(|l|, k requires 0 <= k < |l| => Report(l[k]))
  }

  function EntryReports(l: seq<Rings.Cqe>): (r: seq<(nat, nat, nat)>)
    ensures |r| == |l|
  {
    seq(|l|, k requires 0 <= k < |l| => EntryReport(l[k]))
  }

  lemma ReportsJoin(a: seq<Request>, b: seq<Request>)
    ensures Reports(a + b) == Reports(a) + Reports(b)
  {
  }

  lemma OneReport(r: Request)
    ensures Reports([r]) == [Report(r)]
  {
  }

  lemma EntriesJoin(a: seq<Rings.Cqe>, b: seq<Rings.Cqe>)
    ensures EntryReports(a + b) == EntryReports(a) + EntryReports(b)
  {
  }

  /** Requests as they are when their I/O has been cancelled: those whose I/O had succeeded
      before report success, the others an error. */
  function Cancelled(l: seq<Request>, done: set<nat>): (r: seq<Request>)
    ensures |r| == |l|
  {
    seq(|l|, k requires 0 <= k < |l| => l[k].(status := if l[k].index in done then 0x0 else 0x6))
  }

  lemma CancelledHead(l: seq<Request>, done: set<nat>)
    requires l != []
    ensures Cancelled(l, done) == [l[0].(status := if l[0].index in done then 0x0 else 0x6)] + Cancelled(l[1..], done)
  {
  }

  /** Cancelled requests wait, in order, behind those that waited already. */
  lemma {:induction false} CancelAllWait(c: Ctrl, i: nat, done: set<nat>)
    requires i in c.sqs && c.sqs[i].cqid in c.cqs
    ensures
      var t, k := CancelAll(c, i, done), c.sqs[i].cqid;
      && i in t.sqs && t.sqs[i].cqid == k && t.cqs.Keys == c.cqs.Keys
      && t.cqs[k].reqList == c.cqs[k].reqList + Cancelled(c.sqs[i].outReqList, done)
      && t.cqs[k].posted == c.cqs[k].posted
      && forall l :: l in c.cqs && l != k ==> t.cqs[l] == c.cqs[l]
    decreases if i in c.sqs then |c.sqs[i].outReqList| else 0
  {
    hide Cancelled;
    if c.sqs[i].outReqList == [] {
      assert Cancelled([], done) == [];
    } else {
      CancelledHead(c.sqs[i].outReqList, done);
      CancelAllWait(CancelOne(c, i, done), i, done);
    }
  }

  lemma PostedFirst(c: Ctrl, j: nat)
    requires Postable(c, j) && c.cqs[j].reqList != []
    ensures
      var t := PostOne(c, j);
      && j in t.cqs && t.cqs[j].reqList == c.cqs[j].reqList[1..]
      && EntryReports(t.cqs[j].posted) == EntryReports(c.cqs[j].posted) + [Report(c.cqs[j].reqList[0])]
  {
    EntriesJoin(c.cqs[j].posted, [PostOne(c, j).cqs[j].posted[|c.cqs[j].posted|]]);
  }

  /** What is posted reports on the requests that no longer wait. */
  lemma {:induction false} PostAllReports(c: Ctrl, j: nat)
    requires Postable(c, j)
    ensures j in PostAll(c, j).cqs && |PostAll(c, j).cqs[j].reqList| <= |c.cqs[j].reqList|
    ensures
      var t := PostAll(c, j);
      var n := |c.cqs[j].reqList| - |t.cqs[j].reqList|;
      && t.cqs[j].reqList == c.cqs[j].reqList[n..]
      && EntryReports(t.cqs[j].posted) == EntryReports(c.cqs[j].posted) + Reports(c.cqs[j].reqList[..n])
      && (t.cqs[j].reqList == [] || CqFull(t.cqs[j]))
    decreases if j in c.cqs then |c.cqs[j].reqList| else 0
  {
    hide CqFull, PostOne, Reports, EntryReports;
    var l := c.cqs[j].reqList;
    if l == [] || CqFull(c.cqs[j]) {
      assert l[..0] == [] && Reports([]) == [];
    } else {
      var d, t := PostOne(c, j), PostAll(c, j);
      PostedFirst(c, j);
      assert Postable(d, j) by { StillPostable(c, j); }
      PostAllReports(d, j);
      var n := |l| - |t.cqs[j].reqList|;
      assert l[1..][n - 1..] == l[n..] && l[..n] == [l[0]] + l[1..][..n - 1];
      ReportsJoin([l[0]], l[1..][..n - 1]);
      OneReport(l[0]);
    }
  }

  lemma StillPostable(c: Ctrl, j: nat)
    requires Postable(c, j) && c.cqs[j].reqList != []
    ensures Postable(PostOne(c, j), j)
  {
  }

  /** Deleting a queue: every outstanding command is cancelled; then all that waits is posted
      as far as the ring has room, each with its own status; and of what still waits the
      requests of the deleted queue are dropped. */
  lemma DeletedAnswers(c: Ctrl, qid: nat, done: set<nat>)
    requires Good(c) && qid != 0 && ValidSq(c, qid)
    ensures c.sqs[qid].cqid in c.cqs
    ensures
      var t, j := DoDeleteSq(c, qid, done).0, c.sqs[qid].cqid;
      var all := c.cqs[j].reqList + Cancelled(c.sqs[qid].outReqList, done);
      && j in t.cqs
      && exists n :: 0 <= n <= |all| && PostedUpTo(c.cqs[j], t.cqs[j], all, n, qid)
  {
    hide Structured, ListedBut, CqAwake, CancelAll, PostAll, NotOf, WithoutId, Cancelled, Reports, EntryReports, CqFull;
    HeldQueue(c, qid);
    C.DeleteSqUnfolds(c, qid, done);
    CancelAllWait(c, qid, done);
    var j := c.sqs[qid].cqid;
    var c1 := CancelAll(c, qid, done);
    var c2 := Unlist(c1, qid, j);
    PostAllReports(c2, j);
    var c3 := PostAll(c2, j);
    var all := c.cqs[j].reqList + Cancelled(c.sqs[qid].outReqList, done);
    FullFreed(c3, qid, j);
    assert PostedUpTo(c.cqs[j], DoDeleteSq(c, qid, done).0.cqs[j], all, |all| - |c3.cqs[j].reqList|, qid);
  }

  /** The first `n` are posted, and the rest waits for room. */
  predicate PostedUpTo(q: CQueue, t: CQueue, all: seq<Request>, n: nat, qid: nat)
    requires n <= |all|
  {
    && EntryReports(t.posted) == EntryReports(q.posted) + Reports(all[..n])
    && t.reqList == NotOf(all[n..], qid)
    && (n == |all| || CqFull(t))
  }

  lemma FullFreed(c: Ctrl, i: nat, j: nat)
    requires j in c.cqs
    ensures
      var t := FreeSq(c, i, j);
      && t.cqs[j].reqList == NotOf(c.cqs[j].reqList, i) && t.cqs[j].posted == c.cqs[j].posted
      && CqFull(t.cqs[j]) == CqFull(c.cqs[j])
  {
    hide NotOf;
  }

  // ---------------------------------------------------------------------------
  // One command of the admin queue
  // ---------------------------------------------------------------------------

  /** The last request that waits in completion queue `k` answers this command. */
  predicate Replied(c: Ctrl, k: nat, cid: nat, serial: nat, status: nat) {
    && k in c.cqs && c.cqs[k].reqList != []
    && var r := c.cqs[k].reqList[|c.cqs[k].reqList| - 1];
       r.sqid == 0 && r.cid == cid && r.serial == serial && r.status == status
  }

  /** No queue has come or gone, and none but queue 0 and its completion queue `k` differs. */
  predicate Untouched(c: Ctrl, t: Ctrl, k: nat) {
    && t.sqs.Keys == c.sqs.Keys && t.cqs.Keys == c.cqs.Keys
    && (forall o :: o in c.sqs && o != 0 ==> t.sqs[o] == c.sqs[o])
    && (forall o :: o in c.cqs && o != k ==> t.cqs[o] == c.cqs[o])
    && (k in c.cqs ==> t.cqs[k].sqList == c.cqs[k].sqList)
  }

  /** The completion queue asked for is there, empty, and nothing else has changed. */
  predicate CqAppears(c: Ctrl, t: Ctrl, k: nat, op: AdminOp)
    requires op.CreateCq?
  {
    && op.cqid !in c.cqs && t.cqs.Keys == c.cqs.Keys + {op.cqid} && t.sqs.Keys == c.sqs.Keys
    && (forall o :: o in c.sqs && o != 0 ==> t.sqs[o] == c.sqs[o])
    && (forall o :: o in c.cqs && o != k ==> t.cqs[o] == c.cqs[o])
    && var q := t.cqs[op.cqid];
       && q.size == op.qsize + 1 && q.head == q.tail == 0 && q.phase
       && q.sqList == [] && (op.cqid != k ==> q.reqList == [])
  }

  /** The submission queue asked for is there, empty and listed, with all its requests. */
  predicate SqAppears(c: Ctrl, t: Ctrl, op: AdminOp)
    requires op.CreateSq?
  {
    && op.sqid !in c.sqs && t.sqs.Keys == c.sqs.Keys + {op.sqid} && t.cqs.Keys == c.cqs.Keys
    && (forall o :: o in c.sqs && o != 0 ==> t.sqs[o] == c.sqs[o])
    && (forall o :: o in c.cqs ==> t.cqs[o].sqList == c.cqs[o].sqList + (if o == op.cqid then [op.sqid] else []))
    && var q := t.sqs[op.sqid];
       q.size == op.qsize + 1 == |q.reqList| && q.cqid == op.cqid && q.head == q.tail == 0 && q.outReqList == []
  }

  /** The submission queue has gone, without a trace, and no other. */
  predicate SqGone(c: Ctrl, t: Ctrl, qid: nat) {
    t.sqs.Keys == c.sqs.Keys - {qid} && t.cqs.Keys == c.cqs.Keys && NoTrace(t, qid)
  }

  predicate CqGone(c: Ctrl, t: Ctrl, k: nat, qid: nat) {
    && t.sqs.Keys == c.sqs.Keys && t.cqs.Keys == c.cqs.Keys - {qid}
    && (forall o :: o in c.sqs && o != 0 ==> t.sqs[o] == c.sqs[o])
    && (forall o :: o in t.cqs && o != k ==> t.cqs[o] == c.cqs[o])
  }

  /** What the admin queue's next command asks has been done, and its answer waits. */
  ghost predicate CarriedOut(c: Ctrl, t: Ctrl, f: C.Fetched)
    requires 0 in c.sqs
  {
    var k, n := c.sqs[0].cqid, |c.sqs[0].fetched|;
    match f.op
    case CreateCq(_, _, _, _, _, _) => CqCarriedOut(c, t, k, n, f)
    case CreateSq(_, _, _, _, _, _, _) => SqCarriedOut(c, t, k, n, f)
    case DeleteSq(qid, _) =>
      if qid != 0 && ValidSq(c, qid) then SqGone(c, t, qid) && Replied(t, k, f.cid, n, 0x0)
      else Untouched(c, t, k) && Replied(t, k, f.cid, n, 0x4101)
    case DeleteCq(qid) =>
      if qid == 0 || !ValidCq(c, qid) then Untouched(c, t, k) && Replied(t, k, f.cid, n, 0x4100)
      else if c.cqs[qid].sqList != [] then Untouched(c, t, k) && Replied(t, k, f.cid, n, 0x10C)
      else CqGone(c, t, k, qid) && Replied(t, k, f.cid, n, 0x0)
    case Other => Untouched(c, t, k) && (f.answer.Now? ==> Replied(t, k, f.cid, n, f.answer.status))
  }

  ghost predicate CqCarriedOut(c: Ctrl, t: Ctrl, k: nat, n: nat, f: C.Fetched)
    requires f.op.CreateCq?
  {
    var op := f.op;
    var stored := CqChecksPass(c, op) && (op.contiguous || (op.listOk && op.qsize < 0xFFFF));
    && (stored && op.cqid < c.params.numQueues && op.qsize < 0xFFFF ==> CqAppears(c, t, k, op))
    && (!stored ==> Untouched(c, t, k))
    && exists status :: CqStatuses(c, op, status) && Replied(t, k, f.cid, n, status)
  }

  ghost predicate SqCarriedOut(c: Ctrl, t: Ctrl, k: nat, n: nat, f: C.Fetched)
    requires f.op.CreateSq?
  {
    var op := f.op;
    && (SqChecksPass(c, op) && op.sqid < c.params.numQueues && op.qsize < 0xFFFF ==> SqAppears(c, t, op))
    && (!SqChecksPass(c, op) ==> Untouched(c, t, k))
    && exists status :: SqStatuses(c, op, status) && Replied(t, k, f.cid, n, status)
  }

  lemma OwnRequest(c: Ctrl)
    requires Good(c) && 0 in c.sqs && c.sqs[0].reqList != []
    ensures c.sqs[0].reqList[0].sqid == 0
  {
    C.GoodStructured(c);
    HeldQueue(c, 0);
  }

  /** What starting a command changes. */
  lemma StartChanges(c: Ctrl, cid: nat)
    requires Good(c) && 0 in c.sqs && c.sqs[0].reqList != []
    ensures
      var t, q := C.Started(c, 0, cid), c.sqs[0];
      && t.params == c.params && t.cqs == c.cqs && t.sqs.Keys == c.sqs.Keys && t.broken == c.broken
      && (forall o :: o in c.sqs && o != 0 ==> t.sqs[o] == c.sqs[o])
      && t.sqs[0].cqid == q.cqid && t.sqs[0].outReqList != []
      && var r := t.sqs[0].outReqList[|t.sqs[0].outReqList| - 1];
         r.sqid == 0 && r.cid == cid && r.serial == |q.fetched|
  {
    hide Good;
    OwnRequest(c);
  }

  /** What answering it changes. */
  lemma AnswerChanges(c: Ctrl, a: Answer)
    requires 0 in c.sqs && c.sqs[0].cqid in c.cqs && c.sqs[0].outReqList != []
    ensures
      var t, q := C.Answered(c, 0, a), c.sqs[0];
      var k, r := q.cqid, q.outReqList[|q.outReqList| - 1];
      && t.sqs.Keys == c.sqs.Keys && t.cqs.Keys == c.cqs.Keys
      && (forall o :: o in c.sqs && o != 0 ==> t.sqs[o] == c.sqs[o])
      && (forall o :: o in c.cqs && o != k ==> t.cqs[o] == c.cqs[o])
      && t.cqs[k] == c.cqs[k].(reqList := t.cqs[k].reqList, timer := t.cqs[k].timer)
      && t.cqs[k].reqList == c.cqs[k].reqList + (if a.Now? then [r.(status := a.status)] else [])
  {
  }

  /** The turn of the fetch loop, without its reasons. */
  lemma TurnIs(c: Ctrl, f: C.Fetched)
    requires Good(c) && AwakeBut(c, {0}) && 0 in c.sqs && c.sqs[0].reqList != []
    ensures Good(C.Started(c, 0, f.cid)) && AwakeBut(C.Started(c, 0, f.cid), {0})
    ensures
      var c1 := C.Started(c, 0, f.cid);
      var (c2, a) := Admin(c1, f.op, f.answer);
      && 0 in c2.sqs && c2.sqs[0].cqid in c2.cqs && c2.sqs[0].cqid == c.sqs[0].cqid
      && c2.sqs[0].outReqList == c1.sqs[0].outReqList && c2.sqs[0].outReqList != []
      && C.FetchOne(c, 0, f) == C.Answered(c2, 0, a)
  {
    hide Good, AwakeBut, Admin, C.Answered;
    C.StartedKeeps(c, 0, f.cid);
    StartChanges(c, f.cid);
    var c1 := C.Started(c, 0, f.cid);
    C.ExecutedKeeps(c1, 0, f);
    var (c2, a) := Admin(c1, f.op, f.answer);
    C.AnsweredKeeps(c2, 0, a);
  }

  /** `c1` is `c` with the command started in queue 0; `t` is `c2` with it answered. */
  predicate Around(c: Ctrl, c1: Ctrl, c2: Ctrl, t: Ctrl, cid: nat, a: Answer) {
    && 0 in c.sqs && 0 in c1.sqs && 0 in c2.sqs
    && c1.params == c.params && c1.cqs == c.cqs && c1.sqs.Keys == c.sqs.Keys && c1.broken == c.broken
    && (forall o :: o in c.sqs && o != 0 ==> c1.sqs[o] == c.sqs[o])
    && c1.sqs[0].cqid == c.sqs[0].cqid == c2.sqs[0].cqid
    && t.sqs.Keys == c2.sqs.Keys && t.cqs.Keys == c2.cqs.Keys
    && (forall o :: o in c2.sqs && o != 0 ==> t.sqs[o] == c2.sqs[o])
    && var k := c.sqs[0].cqid;
    && k in c2.cqs && (forall o :: o in c2.cqs && o != k ==> t.cqs[o] == c2.cqs[o])
    && t.cqs[k] == c2.cqs[k].(reqList := t.cqs[k].reqList, timer := t.cqs[k].timer)
    && (a.Now? ==>
          && t.cqs[k].reqList != [] && t.cqs[k].reqList[..|t.cqs[k].reqList| - 1] == c2.cqs[k].reqList
          && Replied(t, k, cid, |c.sqs[0].fetched|, a.status))
    && (a.Later? ==> t.cqs[k].reqList == c2.cqs[k].reqList)
  }

  lemma TurnAround(c: Ctrl, f: C.Fetched)
    requires Good(c) && AwakeBut(c, {0}) && 0 in c.sqs && c.sqs[0].reqList != []
    ensures Good(C.Started(c, 0, f.cid)) && AwakeBut(C.Started(c, 0, f.cid), {0})
    ensures
      var c1 := C.Started(c, 0, f.cid);
      var (c2, a) := Admin(c1, f.op, f.answer);
      Around(c, c1, c2, C.FetchOne(c, 0, f), f.cid, a)
  {
    hide Good, AwakeBut, Admin, C.Answered, C.Started, C.FetchOne;
    TurnIs(c, f);
    StartChanges(c, f.cid);
    var (c2, a) := Admin(C.Started(c, 0, f.cid), f.op, f.answer);
    AnswerChanges(c2, a);
  }

  lemma CqExactly(c: Ctrl, c2: Ctrl, op: AdminOp, s: nat)
    requires op.CreateCq? && DoCreateCq(c, op) == (c2, s)
    ensures
      var stored := CqChecksPass(c, op) && (op.contiguous || (op.listOk && op.qsize < 0xFFFF));
      && CqStatuses(c, op, s) && (!stored ==> c2 == c)
      && (stored && op.cqid < c.params.numQueues && op.qsize < 0xFFFF ==>
            && op.cqid !in c.cqs && c2.sqs == c.sqs && c2.cqs.Keys == c.cqs.Keys + {op.cqid}
            && (forall o :: o in c.cqs && o != op.cqid ==> c2.cqs[o] == c.cqs[o])
            && var q := c2.cqs[op.cqid];
               q.size == op.qsize + 1 && q.head == q.tail == 0 && q.phase && q.sqList == [] && q.reqList == [])
  {
    hide DoCreateCq, CqStatuses;
    CreateCqExact(c, op);
  }

  lemma SqExactly(c: Ctrl, c2: Ctrl, op: AdminOp, s: nat)
    requires op.CreateSq? && DoCreateSq(c, op) == (c2, s)
    ensures SqStatuses(c, op, s) && (!SqChecksPass(c, op) ==> c2 == c)
    ensures
      SqChecksPass(c, op) && op.sqid < c.params.numQueues && op.qsize < 0xFFFF ==>
        && op.sqid !in c.sqs && c2.sqs.Keys == c.sqs.Keys + {op.sqid} && c2.cqs.Keys == c.cqs.Keys
        && (forall o :: o in c.sqs && o != op.sqid ==> c2.sqs[o] == c.sqs[o])
        && (forall o :: o in c.cqs ==> c2.cqs[o].reqList == c.cqs[o].reqList)
        && (forall o :: o in c.cqs ==> c2.cqs[o].sqList == c.cqs[o].sqList + (if o == op.cqid then [op.sqid] else []))
        && var q := c2.sqs[op.sqid];
           q.size == op.qsize + 1 == |q.reqList| && q.cqid == op.cqid && q.head == q.tail == 0 && q.outReqList == []
  {
    hide DoCreateSq, SqStatuses;
    CreateSqExact(c, op);
  }

  lemma CqDone(c: Ctrl, c1: Ctrl, c2: Ctrl, t: Ctrl, f: C.Fetched, s: nat)
    requires Around(c, c1, c2, t, f.cid, Now(s)) && f.op.CreateCq? && DoCreateCq(c1, f.op) == (c2, s)
    ensures CqCarriedOut(c, t, c.sqs[0].cqid, |c.sqs[0].fetched|, f)
  {
    hide DoCreateCq, Replied, CqStatuses, CqChecksPass;
    CqExactly(c1, c2, f.op, s);
    SameChecks(c, c1, f.op);
  }

  lemma SqDone(c: Ctrl, c1: Ctrl, c2: Ctrl, t: Ctrl, f: C.Fetched, s: nat)
    requires Around(c, c1, c2, t, f.cid, Now(s)) && f.op.CreateSq? && DoCreateSq(c1, f.op) == (c2, s)
    ensures SqCarriedOut(c, t, c.sqs[0].cqid, |c.sqs[0].fetched|, f)
  {
    hide DoCreateSq, Replied, SqStatuses, SqChecksPass;
    SqExactly(c1, c2, f.op, s);
    SameChecks(c, c1, f.op);
  }

  lemma CqDropped(c: Ctrl, c1: Ctrl, c2: Ctrl, t: Ctrl, f: C.Fetched, s: nat)
    requires Around(c, c1, c2, t, f.cid, Now(s)) && f.op.DeleteCq? && DoDeleteCq(c1, f.op.qid) == (c2, s)
    ensures CarriedOut(c, t, f)
  {
    hide Replied;
  }

  /** The answer that is added does not belong to the deleted queue. */
  lemma StillNoTrace(c: Ctrl, t: Ctrl, k: nat, qid: nat)
    requires NoTrace(c, qid) && qid != 0 && t.cqs.Keys == c.cqs.Keys && k in c.cqs
    requires forall o :: o in c.cqs && o != k ==> t.cqs[o] == c.cqs[o]
    requires t.cqs[k].sqList == c.cqs[k].sqList && t.cqs[k].reqList != []
    requires t.cqs[k].reqList[..|t.cqs[k].reqList| - 1] == c.cqs[k].reqList
    requires t.cqs[k].reqList[|t.cqs[k].reqList| - 1].sqid == 0
    ensures NoTrace(t, qid)
  {
    forall j | j in t.cqs
      ensures qid !in t.cqs[j].sqList
      ensures forall n :: 0 <= n < |t.cqs[j].reqList| ==> t.cqs[j].reqList[n].sqid != qid
    {
      assert qid !in c.cqs[j].sqList;
      if j == k {
        var l := t.cqs[k].reqList;
        assert forall n :: 0 <= n < |l| - 1 ==> l[n] == l[..|l| - 1][n];
      }
    }
  }

  /** The waiting requests of the deleted queue are gone; the answer is not one of them. */
  lemma SqDropped(c: Ctrl, c1: Ctrl, c2: Ctrl, t: Ctrl, f: C.Fetched, s: nat)
    requires Around(c, c1, c2, t, f.cid, Now(s)) && f.op.DeleteSq? && Good(c1) && AwakeBut(c1, {0})
    requires DoDeleteSq(c1, f.op.qid, f.op.done) == (c2, s)
    ensures CarriedOut(c, t, f)
  {
    hide Good, AwakeBut, DoDeleteSq, NoTrace, SparesAdmin;
    DeleteSqKeeps(c1, f.op.qid, f.op.done);
    if f.op.qid != 0 && ValidSq(c, f.op.qid) {
      StillNoTrace(c2, t, c.sqs[0].cqid, f.op.qid);
    }
  }

  lemma OtherDone(c: Ctrl, c1: Ctrl, t: Ctrl, f: C.Fetched)
    requires Around(c, c1, c1, t, f.cid, f.answer) && f.op.Other?
    ensures CarriedOut(c, t, f)
  {
    hide Replied;
  }

  /** Each turn of the fetch loop on the admin queue carries out the command it reads. */
  lemma TurnCarriesOut(c: Ctrl, f: C.Fetched)
    requires Good(c) && AwakeBut(c, {0}) && 0 in c.sqs && c.sqs[0].reqList != []
    ensures CarriedOut(c, C.FetchOne(c, 0, f), f)
  {
    hide Good, AwakeBut, C.Started, C.FetchOne, Around, CqCarriedOut, SqCarriedOut, DoCreateCq, DoCreateSq, DoDeleteSq,
         DoDeleteCq, Untouched, SqGone, CqGone, Replied;
    TurnAround(c, f);
    var c1, t := C.Started(c, 0, f.cid), C.FetchOne(c, 0, f);
    var (c2, a) := Admin(c1, f.op, f.answer);
    match f.op
    case CreateCq(_, _, _, _, _, _) => CqDone(c, c1, c2, t, f, a.status);
    case CreateSq(_, _, _, _, _, _, _) => SqDone(c, c1, c2, t, f, a.status);
    case DeleteSq(_, _) => SqDropped(c, c1, c2, t, f, a.status);
    case DeleteCq(_) => CqDropped(c, c1, c2, t, f, a.status);
    case Other => OtherDone(c, c1, t, f);
  }

  // ---------------------------------------------------------------------------
  // A burst of commands
  // ---------------------------------------------------------------------------

  /** Commands `env(n)`, `env(n + 1)`, ..., `m` of them, have been carried out one by one. */
  ghost predicate AllCarriedOut(c: Ctrl, t: Ctrl, env: nat -> C.Fetched, n: nat, m: nat)
    decreases m
  {
    if m == 0 then t == c
    else 0 in c.sqs && exists d :: CarriedOut(c, d, env(n)) && AllCarriedOut(d, t, env, n + 1, m - 1)
  }

  lemma {:induction false} LoopCarriesOut(c: Ctrl, env: nat -> C.Fetched, n: nat, budget: nat)
    requires Good(c) && AwakeBut(c, {0}) && 0 in c.sqs
    ensures
      var t := C.FetchLoop(c, 0, env, n, budget);
      && 0 in t.sqs && |c.sqs[0].fetched| <= |t.sqs[0].fetched|
      && AllCarriedOut(c, t, env, n, |t.sqs[0].fetched| - |c.sqs[0].fetched|)
    decreases budget
  {
    hide Good, AwakeBut, C.FetchOne, CarriedOut, SqEmpty;
    if !(budget == 0 || SqEmpty(c.sqs[0]) || c.sqs[0].reqList == []) {
      C.FetchOneKeeps(c, 0, env(n));
      TurnCarriesOut(c, env(n));
      var d := C.FetchOne(c, 0, env(n));
      LoopCarriesOut(d, env, n + 1, budget - 1);
      assert CarriedOut(c, d, env(n));
    }
  }

  /** When the timer of the admin queue fires, the commands read are carried out one by one
      in the order of the ring, and nothing else happens to the queues. */
  lemma AdminCarriesOut(c: Ctrl, env: nat -> C.Fetched)
    requires C.Inv(c) && 0 in c.sqs
    ensures 0 in C.SqProcess(c, 0, env).sqs
    ensures
      var t := C.SqProcess(c, 0, env);
      var m := |t.sqs[0].fetched| - |c.sqs[0].fetched|;
      m >= 0 && exists u ::
        && AllCarriedOut(C.SetTimer(c, 0, false), u, env, 0, m)
        && 0 in u.sqs && (t == u || t == C.SetTimer(u, 0, true))
  {
    hide Good, AwakeBut, C.FetchLoop, AllCarriedOut;
    C.AwakeLess(c, 0);
    C.SetTimerKeeps(c, 0, false);
    var c1, n := C.SetTimer(c, 0, false), c.sqs[0].arbBurst;
    C.AwakeLess(c1, 0);
    C.FetchLoopKeeps(c1, 0, env, 0, n);
    LoopCarriesOut(c1, env, 0, n);
    assert AllCarriedOut(c1, C.FetchLoop(c1, 0, env, 0, n), env, 0,
                         |C.FetchLoop(c1, 0, env, 0, n).sqs[0].fetched| - |c1.sqs[0].fetched|);
  }

  lemma LaterTimerReplied(t: Ctrl, k: nat, cid: nat, n: nat, status: nat, on: bool)
    requires 0 in t.sqs && Replied(t, k, cid, n, status)
    ensures Replied(C.SetTimer(t, 0, on), k, cid, n, status)
  {
  }

  lemma LaterTimerGone(t: Ctrl, qid: nat, on: bool)
    requires 0 in t.sqs && NoTrace(t, qid) && qid != 0
    ensures NoTrace(C.SetTimer(t, 0, on), qid)
  {
  }

  lemma LaterTimerCq(c: Ctrl, t: Ctrl, k: nat, n: nat, f: C.Fetched, on: bool)
    requires 0 in c.sqs && 0 in t.sqs && f.op.CreateCq? && CqCarriedOut(c, t, k, n, f)
    ensures CqCarriedOut(c, C.SetTimer(t, 0, on), k, n, f)
  {
    hide CqStatuses, CqChecksPass, Replied;
    var status :| CqStatuses(c, f.op, status) && Replied(t, k, f.cid, n, status);
    LaterTimerReplied(t, k, f.cid, n, status, on);
  }

  lemma LaterTimerSq(c: Ctrl, t: Ctrl, k: nat, n: nat, f: C.Fetched, on: bool)
    requires 0 in c.sqs && 0 in t.sqs && f.op.CreateSq? && SqCarriedOut(c, t, k, n, f)
    ensures SqCarriedOut(c, C.SetTimer(t, 0, on), k, n, f)
  {
    hide SqStatuses, SqChecksPass, Replied;
    var status :| SqStatuses(c, f.op, status) && Replied(t, k, f.cid, n, status);
    LaterTimerReplied(t, k, f.cid, n, status, on);
  }

  lemma LaterTimerDropped(c: Ctrl, t: Ctrl, f: C.Fetched, on: bool)
    requires 0 in c.sqs && 0 in t.sqs && CarriedOut(c, t, f) && f.op.DeleteSq?
    ensures CarriedOut(c, C.SetTimer(t, 0, on), f)
  {
    hide Replied, NoTrace;
    var k, n, gone := c.sqs[0].cqid, |c.sqs[0].fetched|, f.op.qid != 0 && ValidSq(c, f.op.qid);
    LaterTimerReplied(t, k, f.cid, n, if gone then 0x0 else 0x4101, on);
    if gone { LaterTimerGone(t, f.op.qid, on); }
  }

  lemma LaterTimerRest(c: Ctrl, t: Ctrl, f: C.Fetched, on: bool)
    requires 0 in c.sqs && 0 in t.sqs && CarriedOut(c, t, f) && (f.op.DeleteCq? || f.op.Other?)
    ensures CarriedOut(c, C.SetTimer(t, 0, on), f)
  {
    hide Replied, NoTrace, SqGone;
    var k, n := c.sqs[0].cqid, |c.sqs[0].fetched|;
    forall status: nat | Replied(t, k, f.cid, n, status)
      ensures Replied(C.SetTimer(t, 0, on), k, f.cid, n, status)
    {
      LaterTimerReplied(t, k, f.cid, n, status, on);
    }
  }

  lemma LaterTimer(c: Ctrl, t: Ctrl, f: C.Fetched, on: bool)
    requires 0 in c.sqs && 0 in t.sqs && CarriedOut(c, t, f)
    ensures CarriedOut(c, C.SetTimer(t, 0, on), f)
  {
    hide CqCarriedOut, SqCarriedOut, Replied, NoTrace, Untouched, SqGone, CqGone;
    var k, n := c.sqs[0].cqid, |c.sqs[0].fetched|;
    match f.op
    case CreateCq(_, _, _, _, _, _) => LaterTimerCq(c, t, k, n, f, on);
    case CreateSq(_, _, _, _, _, _, _) => LaterTimerSq(c, t, k, n, f, on);
    case DeleteSq(_, _) => LaterTimerDropped(c, t, f, on);
    case DeleteCq(_) => LaterTimerRest(c, t, f, on);
    case Other => LaterTimerRest(c, t, f, on);
  }

  lemma EarlierTimerCq(c: Ctrl, t: Ctrl, k: nat, n: nat, f: C.Fetched)
    requires 0 in c.sqs && f.op.CreateCq? && CqCarriedOut(C.SetTimer(c, 0, false), t, k, n, f)
    ensures CqCarriedOut(c, t, k, n, f)
  {
    hide CqStatuses, CqChecksPass, Replied;
    SameChecks(c, C.SetTimer(c, 0, false), f.op);
    var status :| CqStatuses(C.SetTimer(c, 0, false), f.op, status) && Replied(t, k, f.cid, n, status);
    assert CqStatuses(c, f.op, status);
  }

  lemma EarlierTimerSq(c: Ctrl, t: Ctrl, k: nat, n: nat, f: C.Fetched)
    requires 0 in c.sqs && f.op.CreateSq? && SqCarriedOut(C.SetTimer(c, 0, false), t, k, n, f)
    ensures SqCarriedOut(c, t, k, n, f)
  {
    hide SqStatuses, SqChecksPass, Replied;
    SameChecks(c, C.SetTimer(c, 0, false), f.op);
    var status :| SqStatuses(C.SetTimer(c, 0, false), f.op, status) && Replied(t, k, f.cid, n, status);
    assert SqStatuses(c, f.op, status);
  }

  lemma EarlierTimer(c: Ctrl, t: Ctrl, f: C.Fetched)
    requires 0 in c.sqs && CarriedOut(C.SetTimer(c, 0, false), t, f)
    ensures CarriedOut(c, t, f)
  {
    hide CqCarriedOut, SqCarriedOut, Replied;
    var k, n := c.sqs[0].cqid, |c.sqs[0].fetched|;
    match f.op
    case CreateCq(_, _, _, _, _, _) => EarlierTimerCq(c, t, k, n, f);
    case CreateSq(_, _, _, _, _, _, _) => EarlierTimerSq(c, t, k, n, f);
    case _ =>
  }

  lemma SameChecks(c: Ctrl, t: Ctrl, op: AdminOp)
    requires t.params == c.params && t.sqs.Keys == c.sqs.Keys && t.cqs == c.cqs
    ensures op.CreateSq? ==> SqChecksPass(t, op) == SqChecksPass(c, op)
    ensures op.CreateCq? ==> CqChecksPass(t, op) == CqChecksPass(c, op)
    ensures op.CreateSq? ==> forall s: nat :: SqStatuses(t, op, s) == SqStatuses(c, op, s)
    ensures op.CreateCq? ==> forall s: nat :: CqStatuses(t, op, s) == CqStatuses(c, op, s)
  {
  }

  /** With a burst of one: the single command read is carried out and answered. */
  lemma OneCommand(c: Ctrl, env: nat -> C.Fetched)
    requires C.Inv(c) && 0 in c.sqs && c.sqs[0].arbBurst == 1 && !SqEmpty(c.sqs[0]) && c.sqs[0].reqList != []
    ensures CarriedOut(c, C.SqProcess(c, 0, env), env(0))
  {
    hide Good, AwakeBut, C.FetchLoop, CarriedOut, SqEmpty;
    AdminCarriesOut(c, env);
    C.TimerFetches(c, 0, env);
    C.AwakeLess(c, 0);
    C.SetTimerKeeps(c, 0, false);
    var c1 := C.SetTimer(c, 0, false);
    C.AwakeLess(c1, 0);
    C.FetchLoopKeeps(c1, 0, env, 0, 1);
    var t := C.SqProcess(c, 0, env);
    var u :| AllCarriedOut(c1, u, env, 0, 1) && 0 in u.sqs && (t == u || t == C.SetTimer(u, 0, true));
    var d :| CarriedOut(c1, d, env(0)) && AllCarriedOut(d, u, env, 1, 0);
    EarlierTimer(c, u, env(0));
    LaterTimer(c, u, env(0), true);
  }
}
