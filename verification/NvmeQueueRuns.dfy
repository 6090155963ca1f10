/** What every step of the controller keeps, over all runs: requests are conserved, queues
    refer to each other consistently, and no waiting work is left without a timer. */
module NvmeQueueRuns {
  import opened Modular
  import opened NvmeQueues

  // ---------------------------------------------------------------------------
  // Requests and references
  // ---------------------------------------------------------------------------

  predicate SameForOthers(l: seq<Request>, l': seq<Request>, i: nat) {
    && (forall a :: 0 <= a < |l'| ==> l'[a] in l || l'[a].sqid == i)
  }

  /** A step that concerns queue `i` and its completion queue only. */
  lemma MoveKeeps(c: Ctrl, i: nat, q: SQueue, cq: CQueue)
    requires Structured(c) && i in c.sqs && q.cqid == c.sqs[i].cqid && q.cqid in c.cqs
    requires cq.sqList == c.cqs[q.cqid].sqList && cq.head < cq.size && cq.tail < cq.size
    requires SqGood(q, i, Of(cq.reqList, i))
    requires forall o :: o != i ==> Of(cq.reqList, o) == Of(c.cqs[q.cqid].reqList, o)
    requires SameForOthers(c.cqs[q.cqid].reqList, cq.reqList, i)
    ensures Structured(c.(sqs := c.sqs[i := q], cqs := c.cqs[q.cqid := cq]))
  {
    hide SqGood, Distinct, Of;
    var t := c.(sqs := c.sqs[i := q], cqs := c.cqs[q.cqid := cq]);
    forall j | j in t.cqs ensures CqGood(t, j) {
      assert CqGood(c, j);
      if j == q.cqid {
        assert SqHeld(c, i);
        forall a | 0 <= a < |cq.reqList| ensures Names(t, cq.reqList[a].sqid, j) {
          if cq.reqList[a].sqid != i {
            var b :| 0 <= b < |c.cqs[j].reqList| && c.cqs[j].reqList[b] == cq.reqList[a];
            assert Names(c, c.cqs[j].reqList[b].sqid, j);
          }
        }
      }
    }
    forall o | o in t.sqs ensures SqHeld(t, o) {
      assert SqHeld(c, o) by { if o == i { assert SqHeld(c, i); } }
    }
  }

  lemma StartStep(c: Ctrl, i: nat, cid: nat)
    requires Structured(c) && i in c.sqs && c.sqs[i].reqList != []
    ensures Structured(c.(sqs := c.sqs[i := Start(c.sqs[i], cid)]))
  {
    hide SqGood, Distinct, Of;
    var q := c.sqs[i];
    assert SqHeld(c, i);
    assert CqGood(c, q.cqid);
    StartKeeps(q, i, Of(c.cqs[q.cqid].reqList, i), cid);
    MoveKeeps(c, i, Start(q, cid), c.cqs[q.cqid]);
    assert c.cqs[q.cqid := c.cqs[q.cqid]] == c.cqs;
  }

  lemma AppendOf(l: seq<Request>, r: Request, o: nat)
    ensures Of(l + [r], o) == if r.sqid == o then Of(l, o) + [r] else Of(l, o)
  {
    OfJoin(l, [r], o);
    assert Of([r], o) == if r.sqid == o then [r] else [];
  }

  lemma CompleteStep(c: Ctrl, i: nat, k: nat, status: nat, o: Outcome)
    requires Structured(c) && i in c.sqs && k < |c.sqs[i].outReqList| && status == StatusOf(o)
    ensures c.sqs[i].cqid in c.cqs && Structured(Complete(c, i, k, status, o))
    ensures c.sqs[i].outReqList[k].sqid == i
  {
    hide Distinct, Of, Conserved;
    var q := c.sqs[i];
    assert SqHeld(c, i);
    assert CqGood(c, q.cqid);
    var cq := c.cqs[q.cqid];
    var r := q.outReqList[k].(status := status);
    CompleteKeepsQueue(q, i, Of(cq.reqList, i), k, status, o);
    forall l ensures Of(cq.reqList + [r], l) == if l == i then Of(cq.reqList, l) + [r] else Of(cq.reqList, l) {
      AppendOf(cq.reqList, r, l);
    }
    hide SqGood;
    MoveKeeps(c, i, q.(outReqList := q.outReqList[..k] + q.outReqList[k + 1..], outcomes := q.outcomes[r.serial := o]),
              cq.(reqList := cq.reqList + [r], timer := true));
  }

  lemma PostStep(c: Ctrl, j: nat)
    requires Structured(c) && j in c.cqs && c.cqs[j].reqList != []
    ensures c.cqs[j].reqList[0].sqid in c.sqs && Structured(PostOne(c, j))
  {
    hide Distinct, Conserved, SqGood, Of;
    var cq := c.cqs[j];
    var i := cq.reqList[0].sqid;
    assert CqGood(c, j);
    assert Names(c, i, j);
    assert SqHeld(c, i);
    HeadOf(cq.reqList);
    PostKeepsQueue(c.sqs[i], i, Of(cq.reqList, i));
    var t := PostOne(c, j);
    MoveKeeps(c, i, t.sqs[i], t.cqs[j]);
  }

  lemma HeadOf(l: seq<Request>)
    requires l != []
    ensures Of(l, l[0].sqid) != [] && Of(l, l[0].sqid)[0] == l[0]
    ensures forall o :: Of(l[1..], o) == if o == l[0].sqid then Of(l, o)[1..] else Of(l, o)
  {
  }

  lemma StructuredPostable(c: Ctrl, j: nat)
    requires Structured(c) && j in c.cqs
    ensures Postable(c, j)
  {
    assert CqGood(c, j);
    forall k | 0 <= k < |c.cqs[j].reqList| ensures c.cqs[j].reqList[k].sqid in c.sqs {
      assert Names(c, c.cqs[j].reqList[k].sqid, j);
    }
  }

  /** Posting frees requests and answers commands, and nothing else. */
  predicate OnlyPosted(c: Ctrl, t: Ctrl, j: nat) {
    && t.params == c.params && t.broken == c.broken && t.sqs.Keys == c.sqs.Keys && t.cqs.Keys == c.cqs.Keys
    && (forall i :: i in c.sqs ==> SameSqButPosted(c.sqs[i], t.sqs[i]))
    && (forall l :: l in c.cqs ==> if l == j then SameCqButPosted(c.cqs[l], t.cqs[l]) else t.cqs[l] == c.cqs[l])
  }

  predicate SameSqButPosted(q: SQueue, t: SQueue) {
    && t == q.(reqList := t.reqList, answered := t.answered)
    && q.reqList <= t.reqList && q.answered <= t.answered
  }

  predicate SameCqButPosted(q: CQueue, t: CQueue) {
    t == q.(reqList := t.reqList, tail := t.tail, phase := t.phase, posted := t.posted) && q.posted <= t.posted
  }

  lemma PostOneOnly(c: Ctrl, j: nat)
    requires Postable(c, j) && c.cqs[j].reqList != []
    ensures OnlyPosted(c, PostOne(c, j), j)
  {
  }

  lemma NothingPosted(c: Ctrl, j: nat)
    ensures OnlyPosted(c, c, j)
  {
  }

  lemma {:induction false} PostAllKeeps(c: Ctrl, j: nat)
    requires Structured(c) && j in c.cqs
    ensures Postable(c, j)
    ensures Structured(PostAll(c, j)) && OnlyPosted(c, PostAll(c, j), j)
    ensures PostAll(c, j).cqs[j].reqList == [] || CqFull(PostAll(c, j).cqs[j])
    decreases if j in c.cqs then |c.cqs[j].reqList| else 0
  {
    hide Structured, CqFull, SameSqButPosted, SameCqButPosted;
    StructuredPostable(c, j);
    if c.cqs[j].reqList != [] && !CqFull(c.cqs[j]) {
      PostStep(c, j);
      PostOneOnly(c, j);
      PostAllKeeps(PostOne(c, j), j);
      OnlyPostedTwice(c, PostOne(c, j), PostAll(PostOne(c, j), j), j);
    } else {
      NothingPosted(c, j);
    }
  }

  lemma PostOneAnswers(c: Ctrl, j: nat, i: nat)
    requires Postable(c, j) && c.cqs[j].reqList != [] && i in c.sqs
    ensures
      var d, r := PostOne(c, j), c.cqs[j].reqList[0];
      && d.sqs.Keys == c.sqs.Keys && j in d.cqs && d.cqs[j].reqList == c.cqs[j].reqList[1..]
      && d.sqs[i].answered == c.sqs[i].answered + (if r.sqid == i then [r] else [])
  {
  }

  lemma OfHead(l: seq<Request>, n: nat, i: nat)
    requires 1 <= n <= |l|
    ensures Of(l[..n], i) == (if l[0].sqid == i then [l[0]] else []) + Of(l[1..][..n - 1], i)
  {
    assert l[..n][0] == l[0] && l[..n][1..] == l[1..][..n - 1];
  }

  /** Completions are posted first come, first served, each to the queue of its command. */
  lemma {:induction false} PostAllInOrder(c: Ctrl, j: nat)
    requires Postable(c, j)
    ensures PostAll(c, j).sqs.Keys == c.sqs.Keys && j in PostAll(c, j).cqs
    ensures |PostAll(c, j).cqs[j].reqList| <= |c.cqs[j].reqList|
    ensures
      var n := |c.cqs[j].reqList| - |PostAll(c, j).cqs[j].reqList|;
      && PostAll(c, j).cqs[j].reqList == c.cqs[j].reqList[n..]
      && forall i :: i in c.sqs ==> PostAll(c, j).sqs[i].answered == c.sqs[i].answered + Of(c.cqs[j].reqList[..n], i)
    decreases if j in c.cqs then |c.cqs[j].reqList| else 0
  {
    hide CqFull, Of, PostOne;
    var l := c.cqs[j].reqList;
    if l == [] || CqFull(c.cqs[j]) {
      assert l[..0] == [];
      forall i | i in c.sqs ensures Of([], i) == [] { NoneOf([], i); }
    } else {
      var d, t := PostOne(c, j), PostAll(c, j);
      PostOneAnswers(c, j, l[0].sqid);
      assert Postable(d, j);
      PostAllInOrder(d, j);
      var n := |l| - |t.cqs[j].reqList|;
      assert l[1..][n - 1..] == l[n..];
      forall i | i in c.sqs ensures t.sqs[i].answered == c.sqs[i].answered + Of(l[..n], i) {
        PostOneAnswers(c, j, i);
        OfHead(l, n, i);
      }
    }
  }

  lemma OnlyPostedTwice(c: Ctrl, t: Ctrl, u: Ctrl, j: nat)
    requires OnlyPosted(c, t, j) && OnlyPosted(t, u, j)
    ensures OnlyPosted(c, u, j)
  {
    forall i | i in c.sqs ensures SameSqButPosted(c.sqs[i], u.sqs[i]) {
      assert SameSqButPosted(c.sqs[i], t.sqs[i]) && SameSqButPosted(t.sqs[i], u.sqs[i]);
    }
  }

  // ---------------------------------------------------------------------------
  // Timers
  // ---------------------------------------------------------------------------

  predicate CqAwake(q: CQueue) {
    q.reqList != [] ==> q.timer || CqFull(q)
  }

  predicate SqAwake(q: SQueue) {
    !SqEmpty(q) ==> q.timer
  }

  /** Work waits only where a timer runs, or where the host must first release entries. */
  predicate AwakeBut(c: Ctrl, but: set<nat>) {
    && (forall j :: j in c.cqs ==> CqAwake(c.cqs[j]))
    && (forall i :: i in c.sqs && i !in but ==> SqAwake(c.sqs[i]))
  }

  /** A step that leaves rings and references alone, and leaves no completion asleep. */
  predicate Quiet(c: Ctrl, t: Ctrl) {
    && t.params == c.params && t.broken == c.broken && t.sqs.Keys == c.sqs.Keys && t.cqs.Keys == c.cqs.Keys
    && (forall i :: i in c.sqs ==> SqQuiet(c.sqs[i], t.sqs[i]))
    && (forall j :: j in c.cqs ==> CqQuiet(c.cqs[j], t.cqs[j]))
  }

  predicate SqQuiet(q: SQueue, t: SQueue) {
    t == q.(reqList := t.reqList, outReqList := t.outReqList, answered := t.answered, outcomes := t.outcomes)
  }

  predicate CqQuiet(q: CQueue, t: CQueue) {
    t.sqList == q.sqList && (CqAwake(q) ==> CqAwake(t))
  }

  lemma QuietTwice(c: Ctrl, t: Ctrl, u: Ctrl)
    requires Quiet(c, t) && Quiet(t, u)
    ensures Quiet(c, u)
  {
    hide CqAwake;
    forall i | i in c.sqs ensures SqQuiet(c.sqs[i], u.sqs[i]) {
      assert SqQuiet(c.sqs[i], t.sqs[i]) && SqQuiet(t.sqs[i], u.sqs[i]);
    }
    forall j | j in c.cqs ensures CqQuiet(c.cqs[j], u.cqs[j]) {
      assert CqQuiet(c.cqs[j], t.cqs[j]) && CqQuiet(t.cqs[j], u.cqs[j]);
    }
  }

  lemma QuietKeeps(c: Ctrl, t: Ctrl, but: set<nat>)
    requires Quiet(c, t)
    ensures ListedBut(c, but) ==> ListedBut(t, but)
    ensures AwakeBut(c, but) ==> AwakeBut(t, but)
  {
    hide CqAwake;
    forall i | i in c.sqs
      ensures Listed(c, i) ==> Listed(t, i)
      ensures SqAwake(c.sqs[i]) ==> SqAwake(t.sqs[i])
    {
      assert SqQuiet(c.sqs[i], t.sqs[i]);
      if Listed(c, i) {
        assert CqQuiet(c.cqs[c.sqs[i].cqid], t.cqs[c.sqs[i].cqid]);
      }
    }
    forall j | j in c.cqs ensures CqAwake(c.cqs[j]) ==> CqAwake(t.cqs[j]) {
      assert CqQuiet(c.cqs[j], t.cqs[j]);
    }
  }

  lemma CompleteQuiet(c: Ctrl, i: nat, k: nat, status: nat, o: Outcome)
    requires i in c.sqs && c.sqs[i].cqid in c.cqs && k < |c.sqs[i].outReqList|
    ensures Quiet(c, Complete(c, i, k, status, o))
  {
    hide CqFull;
  }

  lemma OnlyPostedQuiet(c: Ctrl, t: Ctrl, j: nat)
    requires OnlyPosted(c, t, j) && j in c.cqs
    requires t.cqs[j].reqList == [] || CqFull(t.cqs[j])
    ensures Quiet(c, t) && CqAwake(t.cqs[j])
  {
    hide CqFull;
    forall i | i in c.sqs ensures SqQuiet(c.sqs[i], t.sqs[i]) {
      assert SameSqButPosted(c.sqs[i], t.sqs[i]);
    }
  }

  lemma PostAllQuiet(c: Ctrl, j: nat)
    requires Structured(c) && j in c.cqs
    ensures Postable(c, j) && Quiet(c, PostAll(c, j)) && CqAwake(PostAll(c, j).cqs[j])
  {
    hide *;
    PostAllKeeps(c, j);
    OnlyPostedQuiet(c, PostAll(c, j), j);
  }

  // ---------------------------------------------------------------------------
  // Deleting a submission queue
  // ---------------------------------------------------------------------------

  lemma HeldQueue(c: Ctrl, i: nat)
    requires Structured(c) && i in c.sqs
    ensures c.sqs[i].cqid in c.cqs && SqGood(c.sqs[i], i, Of(c.cqs[c.sqs[i].cqid].reqList, i))
    ensures CqGood(c, c.sqs[i].cqid)
  {
    assert SqHeld(c, i);
  }

  predicate OnlyCancelled(c: Ctrl, t: Ctrl, i: nat) {
    && i in c.sqs && i in t.sqs && t.sqs[i].outReqList == []
    && forall o :: o in c.sqs && o != i ==> o in t.sqs && t.sqs[o] == c.sqs[o]
  }

  lemma CancelOneKeeps(c: Ctrl, i: nat, done: set<nat>)
    requires Structured(c) && i in c.sqs && c.sqs[i].outReqList != []
    ensures c.sqs[i].cqid in c.cqs
    ensures Structured(CancelOne(c, i, done)) && Quiet(c, CancelOne(c, i, done))
  {
    HeldQueue(c, i);
    hide Structured, Quiet, CqAwake, SqGood, CqGood, Complete;
    var finished := c.sqs[i].outReqList[0].index in done;
    CompleteStep(c, i, 0, if finished then SUCCESS else INTERNAL_DEV_ERROR, IoEnded(finished));
    CompleteQuiet(c, i, 0, if finished then SUCCESS else INTERNAL_DEV_ERROR, IoEnded(finished));
  }

  lemma {:induction false} CancelAllOnly(c: Ctrl, i: nat, done: set<nat>)
    requires i in c.sqs && c.sqs[i].cqid in c.cqs
    ensures OnlyCancelled(c, CancelAll(c, i, done), i)
    decreases if i in c.sqs then |c.sqs[i].outReqList| else 0
  {
    if c.sqs[i].outReqList != [] {
      CancelAllOnly(CancelOne(c, i, done), i, done);
    }
  }

  lemma {:induction false} CancelAllKeeps(c: Ctrl, i: nat, done: set<nat>)
    requires Structured(c) && i in c.sqs
    ensures c.sqs[i].cqid in c.cqs
    ensures Structured(CancelAll(c, i, done)) && Quiet(c, CancelAll(c, i, done))
    decreases if i in c.sqs then |c.sqs[i].outReqList| else 0
  {
    HeldQueue(c, i);
    hide Structured, Quiet, CqAwake, SqGood, CqGood;
    if c.sqs[i].outReqList == [] {
      QuietItself(c);
    } else {
      CancelOneKeeps(c, i, done);
      CancelAllKeeps(CancelOne(c, i, done), i, done);
      QuietTwice(c, CancelOne(c, i, done), CancelAll(c, i, done));
    }
  }

  lemma QuietItself(c: Ctrl)
    ensures Quiet(c, c)
  {
  }

  /** Every queue is listed and every list is right: the state between two events. */
  ghost predicate Good(c: Ctrl) {
    Structured(c) && ListedBut(c, {})
  }

  lemma {:induction false} WithoutIdIs(l: seq<nat>, i: nat)
    requires Distinct(l)
    ensures Distinct(WithoutId(l, i)) && i !in WithoutId(l, i)
    ensures forall o :: o != i ==> (o in WithoutId(l, i) <==> o in l)
    ensures forall a :: 0 <= a < |WithoutId(l, i)| ==> WithoutId(l, i)[a] in l
  {
    if l != [] {
      assert l[1..] == l[1..|l|] && Distinct(l[1..]);
      WithoutIdIs(l[1..], i);
      if l[0] == i {
        assert forall a :: 0 <= a < |l[1..]| ==> l[1..][a] == l[a + 1];
      } else {
        var w := WithoutId(l[1..], i);
        assert l[0] !in w;
        assert WithoutId(l, i) == [l[0]] + w;
      }
    }
  }

  lemma UnlistOwner(c: Ctrl, i: nat, j: nat)
    requires Structured(c) && j in c.cqs
    ensures CqGood(Unlist(c, i, j), j) && i !in Unlist(c, i, j).cqs[j].sqList
    ensures forall o :: o != i ==> (o in Unlist(c, i, j).cqs[j].sqList <==> o in c.cqs[j].sqList)
  {
    assert CqGood(c, j);
    var l, t := c.cqs[j].sqList, Unlist(c, i, j);
    WithoutIdIs(l, i);
    forall a | 0 <= a < |WithoutId(l, i)| ensures Names(t, WithoutId(l, i)[a], j) {
      var b :| 0 <= b < |l| && l[b] == WithoutId(l, i)[a];
      assert Names(c, l[b], j);
    }
    forall a | 0 <= a < |t.cqs[j].reqList| ensures Names(t, t.cqs[j].reqList[a].sqid, j) {
      assert Names(c, c.cqs[j].reqList[a].sqid, j);
    }
  }

  lemma UnlistKeeps(c: Ctrl, i: nat)
    requires Good(c) && i in c.sqs
    ensures c.sqs[i].cqid in c.cqs
    ensures
      var t := Unlist(c, i, c.sqs[i].cqid);
      Structured(t) && ListedBut(t, {i}) && i !in t.cqs[c.sqs[i].cqid].sqList
  {
    HeldQueue(c, i);
    hide SqGood, Distinct, WithoutId, Of;
    var j := c.sqs[i].cqid;
    UnlistOwner(c, i, j);
    var t := Unlist(c, i, j);
    forall k | k in t.cqs ensures CqGood(t, k) {
      assert CqGood(c, k);
      if k != j {
        forall a | 0 <= a < |t.cqs[k].reqList| ensures Names(t, t.cqs[k].reqList[a].sqid, k) {
          assert Names(c, c.cqs[k].reqList[a].sqid, k);
        }
        forall a | 0 <= a < |t.cqs[k].sqList| ensures Names(t, t.cqs[k].sqList[a], k) {
          assert Names(c, c.cqs[k].sqList[a], k);
        }
      }
    }
    forall o | o in t.sqs ensures SqHeld(t, o) && (o != i ==> Listed(t, o)) {
      assert SqHeld(c, o) && Listed(c, o);
    }
  }

  lemma FreeOwner(c: Ctrl, i: nat, j: nat, k: nat)
    requires Structured(c) && i in c.sqs && c.sqs[i].cqid == j && j in c.cqs && k in c.cqs && i !in c.cqs[j].sqList
    ensures CqGood(FreeSq(c, i, j), k)
  {
    hide SqGood, Distinct, NotOf, Of;
    var t := FreeSq(c, i, j);
    assert CqGood(c, k);
    forall a | 0 <= a < |t.cqs[k].sqList| ensures Names(t, t.cqs[k].sqList[a], k) {
      assert Names(c, c.cqs[k].sqList[a], k);
    }
    OfNotOf(c.cqs[k].reqList, i, i);
    forall a | 0 <= a < |t.cqs[k].reqList| ensures Names(t, t.cqs[k].reqList[a].sqid, k) {
      var b :| 0 <= b < |c.cqs[k].reqList| && c.cqs[k].reqList[b] == t.cqs[k].reqList[a];
      assert Names(c, c.cqs[k].reqList[b].sqid, k);
    }
  }

  lemma FreeKeeps(c: Ctrl, i: nat, j: nat)
    requires Structured(c) && ListedBut(c, {i}) && i in c.sqs && c.sqs[i].cqid == j && j in c.cqs
    requires i !in c.cqs[j].sqList
    ensures Structured(FreeSq(c, i, j)) && ListedBut(FreeSq(c, i, j), {})
  {
    hide SqGood, CqGood, NotOf, Of;
    var t := FreeSq(c, i, j);
    forall k | k in t.cqs ensures CqGood(t, k) {
      FreeOwner(c, i, j, k);
    }
    forall o | o in t.sqs ensures SqHeld(t, o) && Listed(t, o) {
      assert SqHeld(c, o) && Listed(c, o);
      OfNotOf(c.cqs[c.sqs[o].cqid].reqList, i, o);
    }
  }

  /** Deleting: cancel, unlink, post what the ring has room for, take back the rest. */
  function DoDeleteSq(c: Ctrl, qid: nat, done: set<nat>): (Ctrl, nat)
    requires Good(c)
  {
    if qid == 0 || !ValidSq(c, qid) then (c, INVALID_QID + DNR)
    else
      CancelAllKeeps(c, qid, done);
      CancelAllOnly(c, qid, done);
      var c1 := CancelAll(c, qid, done);
      QuietKeeps(c, c1, {});
      UnlistKeeps(c1, qid);
      var j := c1.sqs[qid].cqid;
      var c2 := Unlist(c1, qid, j);
      PostAllKeeps(c2, j);
      (FreeSq(PostAll(c2, j), qid, j), SUCCESS)
  }

  /** Once a queue is deleted nothing refers to it any more, and deletion is only refused
      for a queue that does not exist. */
  lemma DeleteSqKeeps(c: Ctrl, qid: nat, done: set<nat>)
    requires Good(c) && AwakeBut(c, {0})
    ensures
      var (t, s) := DoDeleteSq(c, qid, done);
      && Good(t) && AwakeBut(t, {0}) && SparesAdmin(c, t)
      && s == (if qid != 0 && ValidSq(c, qid) then 0x0 else 0x4101)
      && (s != SUCCESS ==> t == c)
      && (s == SUCCESS ==> t.sqs.Keys == c.sqs.Keys - {qid} && t.cqs.Keys == c.cqs.Keys && NoTrace(t, qid))
  {
    if qid != 0 && ValidSq(c, qid) {
      DeleteLive(c, qid, done);
    } else {
      assert SparesAdmin(c, c);
    }
  }

  /** No list of any completion queue mentions queue `i`. */
  predicate NoTrace(c: Ctrl, i: nat) {
    forall j :: j in c.cqs ==>
      i !in c.cqs[j].sqList && forall k :: 0 <= k < |c.cqs[j].reqList| ==> c.cqs[j].reqList[k].sqid != i
  }

  lemma GoneNoTrace(c: Ctrl, i: nat)
    requires Structured(c) && i !in c.sqs
    ensures NoTrace(c, i)
  {
    forall j | j in c.cqs
      ensures i !in c.cqs[j].sqList
      ensures forall k :: 0 <= k < |c.cqs[j].reqList| ==> c.cqs[j].reqList[k].sqid != i
    {
      assert CqGood(c, j);
      forall k | 0 <= k < |c.cqs[j].reqList| ensures c.cqs[j].reqList[k].sqid != i {
        assert Names(c, c.cqs[j].reqList[k].sqid, j);
      }
      forall a | 0 <= a < |c.cqs[j].sqList| ensures c.cqs[j].sqList[a] != i {
        assert Names(c, c.cqs[j].sqList[a], j);
      }
    }
  }

  /** The admin queue's own ring and outstanding requests, while one of its commands runs. */
  predicate SparesAdmin(c: Ctrl, t: Ctrl) {
    0 in c.sqs ==> 0 in t.sqs && SqQuiet(c.sqs[0], t.sqs[0]) && t.sqs[0].outReqList == c.sqs[0].outReqList
  }

  lemma FreeAwake(c: Ctrl, i: nat, j: nat, but: set<nat>)
    requires AwakeBut(c, but) && j in c.cqs
    ensures AwakeBut(FreeSq(c, i, j), but)
  {
    hide Wrap;
    if c.cqs[j].reqList == [] {
      assert NotOf(c.cqs[j].reqList, i) == [];
    }
  }

  lemma UnlistAwake(c: Ctrl, i: nat, j: nat, but: set<nat>)
    requires AwakeBut(c, but) && j in c.cqs
    ensures AwakeBut(Unlist(c, i, j), but)
  {
    hide Wrap;
  }

  lemma DeleteLive(c: Ctrl, qid: nat, done: set<nat>)
    requires Good(c) && AwakeBut(c, {0}) && qid != 0 && ValidSq(c, qid)
    ensures
      var t := DoDeleteSq(c, qid, done).0;
      && Good(t) && AwakeBut(t, {0}) && SparesAdmin(c, t)
      && t.sqs.Keys == c.sqs.Keys - {qid} && t.cqs.Keys == c.cqs.Keys && NoTrace(t, qid)
  {
    hide Structured, ListedBut, AwakeBut, CancelAll, PostAll, NotOf, WithoutId, SqGood, CqAwake;
    CancelAllKeeps(c, qid, done);
    CancelAllOnly(c, qid, done);
    var c1 := CancelAll(c, qid, done);
    QuietKeeps(c, c1, {});
    QuietKeeps(c, c1, {0});
    UnlistKeeps(c1, qid);
    var j := c1.sqs[qid].cqid;
    var c2 := Unlist(c1, qid, j);
    UnlistAwake(c1, qid, j, {0});
    PostAllKeeps(c2, j);
    PostAllQuiet(c2, j);
    var c3 := PostAll(c2, j);
    QuietKeeps(c2, c3, {qid});
    QuietKeeps(c2, c3, {0});
    assert SqQuiet(c2.sqs[qid], c3.sqs[qid]) && CqQuiet(c2.cqs[j], c3.cqs[j]);
    FreeKeeps(c3, qid, j);
    FreeAwake(c3, qid, j, {0});
    GoneNoTrace(FreeSq(c3, qid, j), qid);
    if 0 in c.sqs {
      assert SameSqButPosted(c2.sqs[0], c3.sqs[0]);
    }
  }

  // ---------------------------------------------------------------------------
  // Creating queues, and deleting a completion queue
  // ---------------------------------------------------------------------------

  lemma {:induction false} NoneOf(l: seq<Request>, i: nat)
    requires forall a :: 0 <= a < |l| ==> l[a].sqid != i
    ensures Of(l, i) == []
  {
    if l != [] {
      NoneOf(l[1..], i);
    }
  }

  lemma AddSqKeeps(c: Ctrl, i: nat, j: nat, size: RingSize, burst: nat)
    requires Good(c) && i !in c.sqs && j in c.cqs
    ensures Good(AddSq(c, i, j, size, burst))
  {
    hide SqGood, Of;
    var t := AddSq(c, i, j, size, burst);
    GoneNoTrace(c, i);
    NoneOf(c.cqs[j].reqList, i);
    InitSqGood(i, j, size, burst);
    forall k | k in t.cqs ensures CqGood(t, k) {
      assert CqGood(c, k);
      forall a | 0 <= a < |t.cqs[k].reqList| ensures Names(t, t.cqs[k].reqList[a].sqid, k) {
        assert Names(c, c.cqs[k].reqList[a].sqid, k);
      }
      forall a | 0 <= a < |t.cqs[k].sqList| ensures Names(t, t.cqs[k].sqList[a], k) {
        if a < |c.cqs[k].sqList| {
          assert Names(c, c.cqs[k].sqList[a], k);
        }
      }
    }
    forall o | o in t.sqs ensures SqHeld(t, o) && Listed(t, o) {
      if o != i {
        assert SqHeld(c, o) && Listed(c, o);
      }
    }
  }

  lemma AddCqKeeps(c: Ctrl, j: nat, size: RingSize)
    requires Good(c) && j !in c.cqs
    ensures Good(AddCq(c, j, size))
  {
    hide SqGood;
    var t := AddCq(c, j, size);
    forall k | k in t.cqs ensures CqGood(t, k) {
      if k != j {
        assert CqGood(c, k);
        forall a | 0 <= a < |t.cqs[k].reqList| ensures Names(t, t.cqs[k].reqList[a].sqid, k) {
          assert Names(c, c.cqs[k].reqList[a].sqid, k);
        }
        forall a | 0 <= a < |t.cqs[k].sqList| ensures Names(t, t.cqs[k].sqList[a], k) {
          assert Names(c, c.cqs[k].sqList[a], k);
        }
      }
    }
    forall o | o in t.sqs ensures SqHeld(t, o) && Listed(t, o) {
      assert SqHeld(c, o) && Listed(c, o);
    }
  }

  /** Only a completion queue that no submission queue uses can be freed. */
  lemma DropCqKeeps(c: Ctrl, j: nat)
    requires Good(c) && j in c.cqs && c.cqs[j].sqList == []
    ensures Good(c.(cqs := c.cqs - {j}))
    ensures forall i :: i in c.sqs ==> c.sqs[i].cqid != j
  {
    hide SqGood, Distinct;
    var t := c.(cqs := c.cqs - {j});
    forall o | o in t.sqs ensures SqHeld(t, o) && Listed(t, o) && c.sqs[o].cqid != j {
      assert SqHeld(c, o) && Listed(c, o);
    }
    forall k | k in t.cqs ensures CqGood(t, k) {
      assert CqGood(c, k);
      forall a | 0 <= a < |t.cqs[k].reqList| ensures Names(t, t.cqs[k].reqList[a].sqid, k) {
        assert Names(c, c.cqs[k].reqList[a].sqid, k);
      }
      forall a | 0 <= a < |t.cqs[k].sqList| ensures Names(t, t.cqs[k].sqList[a], k) {
        assert Names(c, c.cqs[k].sqList[a], k);
      }
    }
  }

  predicate Others(c: Ctrl, t: Ctrl, i: nat, j: nat) {
    && (forall o :: o in c.sqs && o != i ==> o in t.sqs && t.sqs[o] == c.sqs[o])
    && (forall o :: o in c.cqs && o != j ==> o in t.cqs && t.cqs[o] == c.cqs[o])
  }

  /** The checks on a new submission queue, all passed. */
  predicate SqChecksPass(c: Ctrl, op: AdminOp)
    requires op.CreateSq?
  {
    && op.cqid != 0 && ValidCq(c, op.cqid) && op.sqid != 0 && !ValidSq(c, op.sqid)
    && 1 <= op.qsize <= c.params.mqes && op.prp1 != 0 && op.prp1 % c.params.pageSize == 0
    && (op.contiguous || (!c.params.contigRequired && op.listOk && op.qsize < 0xFFFF))
  }

  /** Which status answers a command to create a submission queue. */
  predicate SqStatuses(c: Ctrl, op: AdminOp, s: nat)
    requires op.CreateSq?
  {
    var noCq := op.cqid == 0 || !ValidCq(c, op.cqid);
    var taken := op.sqid == 0 || ValidSq(c, op.sqid);
    var badSize := op.qsize == 0 || op.qsize > c.params.mqes;
    var badField :=
      || op.prp1 == 0 || op.prp1 % c.params.pageSize != 0
      || (!op.contiguous && (c.params.contigRequired || !op.listOk || op.qsize >= 0xFFFF));
    && (s == 0x4100 <==> noCq)
    && (s == 0x4101 <==> !noCq && taken)
    && (s == 0x4102 <==> !noCq && !taken && badSize)
    && (s == 0x4002 <==> !noCq && !taken && !badSize && badField)
    && (s == 0x0 <==> !noCq && !taken && !badSize && !badField)
  }

  /** Which status answers a command to create a completion queue. */
  predicate CqStatuses(c: Ctrl, op: AdminOp, s: nat)
    requires op.CreateCq?
  {
    var taken := op.cqid == 0 || ValidCq(c, op.cqid);
    var badSize := op.qsize == 0 || op.qsize > c.params.mqes;
    var badVector := op.vector > c.params.numQueues;
    var notAllowed := !op.contiguous && c.params.contigRequired;
    && (s == 0x4100 <==> taken)
    && (s == 0x4102 <==> !taken && badSize)
    && (s == 0x4108 <==> !taken && !badSize && op.prp1 != 0 && badVector)
    && (s == 0x4002 <==> !taken && !badSize && (op.prp1 == 0 || (!badVector && notAllowed)))
    && (s == 0x0 <==> !taken && !badSize && op.prp1 != 0 && !badVector && !notAllowed)
  }

  /** Success is reported exactly when every check passes; then the queue is empty, has one
      more entry than the zero-based size, and nothing else changes but the list it joins.
      Nothing keeps out an identifier beyond the arrays, or a contiguous ring of 65536
      entries. */
  lemma CreateSqExact(c: Ctrl, op: AdminOp)
    requires op.CreateSq?
    ensures
      var (t, s) := DoCreateSq(c, op);
      && SqStatuses(c, op, s) && (s == SUCCESS <==> SqChecksPass(c, op))
      && (s != SUCCESS ==> t == c)
      && (t.broken <==>
            c.broken || (s == SUCCESS && (op.sqid >= c.params.numQueues || (op.contiguous && op.qsize >= 0xFFFF))))
      && (s == SUCCESS && op.sqid < c.params.numQueues && op.qsize < 0xFFFF ==>
            && Others(c, t, op.sqid, op.cqid) && t.sqs.Keys == c.sqs.Keys + {op.sqid} && t.cqs.Keys == c.cqs.Keys
            && t.sqs[op.sqid].size == op.qsize + 1 && t.sqs[op.sqid].cqid == op.cqid
            && t.sqs[op.sqid].head == t.sqs[op.sqid].tail == 0 && t.sqs[op.sqid].outReqList == []
            && !t.sqs[op.sqid].timer && t.sqs[op.sqid].fetched == [] && t.sqs[op.sqid].outcomes == map[]
            && |t.sqs[op.sqid].reqList| == op.qsize + 1
            && t.sqs[op.sqid].arbBurst == ArbBurst(op.share) && (ArbBurst(op.share) == 0 <==> op.share == Weighted(255))
            && t.cqs[op.cqid].sqList == c.cqs[op.cqid].sqList + [op.sqid]
            && t.cqs[op.cqid].reqList == c.cqs[op.cqid].reqList)
  {
    WrapIsRemainder(op.prp1, c.params.pageSize);
    NoBurst(op.share);
  }

  /** The checks on a new completion queue, all passed. */
  predicate CqChecksPass(c: Ctrl, op: AdminOp)
    requires op.CreateCq?
  {
    && op.cqid != 0 && !ValidCq(c, op.cqid) && 1 <= op.qsize <= c.params.mqes && op.prp1 != 0
    && op.vector <= c.params.numQueues && (op.contiguous || !c.params.contigRequired)
  }

  /** Success is reported exactly when every check passes, also when the ring cannot be
      read and no queue appears.  Identifiers beyond the arrays and a contiguous ring of
      65536 entries pass the checks too. */
  lemma CreateCqExact(c: Ctrl, op: AdminOp)
    requires op.CreateCq?
    ensures
      var (t, s) := DoCreateCq(c, op);
      var stored := CqChecksPass(c, op) && (op.contiguous || (op.listOk && op.qsize < 0xFFFF));
      var fits := op.cqid < c.params.numQueues && !(op.contiguous && op.qsize >= 0xFFFF);
      && CqStatuses(c, op, s) && (s == SUCCESS <==> CqChecksPass(c, op))
      && (t.broken <==> c.broken || (stored && !fits))
      && (t.cqs.Keys != c.cqs.Keys <==> stored && fits)
      && (stored && fits ==>
            && t.cqs.Keys == c.cqs.Keys + {op.cqid} && t.cqs[op.cqid].size == op.qsize + 1 && t.cqs[op.cqid].phase
            && t.cqs[op.cqid].head == t.cqs[op.cqid].tail == 0
            && t.cqs[op.cqid].reqList == [] && t.cqs[op.cqid].posted == []
            && t.cqs[op.cqid].sqList == [] && !t.cqs[op.cqid].timer && t.sqs == c.sqs && Others(c, t, 0, op.cqid))
      && (!stored ==> t == c)
  {
    if CqChecksPass(c, op) && (op.contiguous || op.listOk) && Fits(c.params, op.cqid, op.qsize) {
      assert op.cqid in DoCreateCq(c, op).0.cqs.Keys && op.cqid !in c.cqs.Keys;
    }
  }

  /** Sixteen bits hold the size of a ring exactly when the zero-based size is not 0xFFFF;
      then it comes out as zero. */
  lemma SixteenBitSize(qsize: nat)
    requires qsize <= 0xFFFF
    ensures (qsize + 1) % 0x1_0000 == qsize + 1 <==> qsize < 0xFFFF
    ensures (qsize + 1) % 0x1_0000 == 0 <==> qsize == 0xFFFF
  {
  }

  /** What the code does not check. */
  predicate OpFits(p: Params, op: AdminOp) {
    match op
    case CreateSq(sqid, _, qsize, _, contiguous, _, _) => sqid < p.numQueues && (contiguous ==> qsize < 0xFFFF)
    case CreateCq(cqid, _, qsize, _, contiguous, _) => cqid < p.numQueues && (contiguous ==> qsize < 0xFFFF)
    case _ => true
  }

  /** What an admin command does to the queues, and its answer. */
  function Admin(c: Ctrl, op: AdminOp, other: Answer): (Ctrl, Answer)
    requires Good(c)
  {
    match op
    case CreateSq(_, _, _, _, _, _, _) => var (t, s) := DoCreateSq(c, op); (t, Now(s))
    case CreateCq(_, _, _, _, _, _) => var (t, s) := DoCreateCq(c, op); (t, Now(s))
    case DeleteSq(qid, done) => var (t, s) := DoDeleteSq(c, qid, done); (t, Now(s))
    case DeleteCq(qid) => var (t, s) := DoDeleteCq(c, qid); (t, Now(s))
    case Other => (c, other)
  }

  lemma CreateKeeps(c: Ctrl, op: AdminOp)
    requires Good(c) && AwakeBut(c, {0}) && (op.CreateSq? || op.CreateCq?)
    ensures
      var t := if op.CreateSq? then DoCreateSq(c, op).0 else DoCreateCq(c, op).0;
      && Good(t) && AwakeBut(t, {0}) && SparesAdmin(c, t) && t.params == c.params
      && (OpFits(c.params, op) ==> t.broken == c.broken) && (c.broken ==> t.broken)
  {
    hide Structured, ListedBut, Wrap, Good;
    BreakKeeps(c);
    match op
    case CreateSq(i, j, n, _, _, _, share) =>
      if i !in c.sqs && j in c.cqs && n >= 1 { AddSqKeeps(c, i, j, n + 1, ArbBurst(share)); }
    case CreateCq(j, _, n, _, _, _) =>
      if j !in c.cqs && n >= 1 { AddCqKeeps(c, j, n + 1); }
  }

  lemma BreakKeeps(c: Ctrl)
    requires Good(c) && AwakeBut(c, {0})
    ensures Good(c.(broken := true)) && AwakeBut(c.(broken := true), {0})
  {
    hide SqGood, Distinct, CqAwake;
    var t := c.(broken := true);
    forall k | k in t.cqs ensures CqGood(t, k) {
      assert CqGood(c, k);
      forall a | 0 <= a < |t.cqs[k].reqList| ensures Names(t, t.cqs[k].reqList[a].sqid, k) {
        assert Names(c, c.cqs[k].reqList[a].sqid, k);
      }
      forall a | 0 <= a < |t.cqs[k].sqList| ensures Names(t, t.cqs[k].sqList[a], k) {
        assert Names(c, c.cqs[k].sqList[a], k);
      }
    }
    forall o | o in t.sqs ensures SqHeld(t, o) && Listed(t, o) {
      assert SqHeld(c, o) && Listed(c, o);
    }
  }

  lemma AdminKeeps(c: Ctrl, op: AdminOp, other: Answer)
    requires Good(c) && AwakeBut(c, {0})
    ensures
      var t := Admin(c, op, other).0;
      && Good(t) && AwakeBut(t, {0}) && SparesAdmin(c, t) && t.params == c.params
      && (OpFits(c.params, op) ==> t.broken == c.broken) && (c.broken ==> t.broken)
  {
    hide Good, AwakeBut, DoCreateSq, DoCreateCq, DoDeleteSq, CqFull;
    match op
    case CreateSq(_, _, _, _, _, _, _) => CreateKeeps(c, op);
    case CreateCq(_, _, _, _, _, _) => CreateKeeps(c, op);
    case DeleteSq(qid, done) => DeleteSqKeeps(c, qid, done); DeleteSqParams(c, qid, done);
    case DeleteCq(qid) => DeleteCqKeeps(c, qid);
    case Other =>
  }

  lemma DeleteCqKeeps(c: Ctrl, qid: nat)
    requires Good(c) && AwakeBut(c, {0})
    ensures
      var t := DoDeleteCq(c, qid).0;
      && Good(t) && AwakeBut(t, {0}) && SparesAdmin(c, t) && t.params == c.params && t.broken == c.broken
  {
    hide Good, CqFull;
    if qid in c.cqs && c.cqs[qid].sqList == [] { DropCqKeeps(c, qid); }
  }

  /** A completion queue is freed exactly when it exists, is not the admin queue, and no
      live submission queue names it. */
  lemma DeleteCqExact(c: Ctrl, qid: nat)
    requires Good(c)
    ensures
      var (t, s) := DoDeleteCq(c, qid);
      && (s == 0x4100 <==> qid == 0 || !ValidCq(c, qid)) && s in {0x0, 0x10C, 0x4100}
      && (s == 0x0 <==> qid != 0 && ValidCq(c, qid) && forall i :: i in c.sqs ==> c.sqs[i].cqid != qid)
      && (t != c ==> s == SUCCESS) && (s == SUCCESS ==> t.cqs.Keys == c.cqs.Keys - {qid})
  {
    if qid in c.cqs {
      assert CqGood(c, qid);
      if c.cqs[qid].sqList == [] {
        DropCqKeeps(c, qid);
      } else {
        assert Names(c, c.cqs[qid].sqList[0], qid);
      }
    }
  }

  lemma DeleteSqParams(c: Ctrl, qid: nat, done: set<nat>)
    requires Good(c)
    ensures DoDeleteSq(c, qid, done).0.params == c.params && DoDeleteSq(c, qid, done).0.broken == c.broken
  {
    if qid != 0 && ValidSq(c, qid) {
      CancelAllKeeps(c, qid, done);
      var c1 := CancelAll(c, qid, done);
      QuietKeeps(c, c1, {});
      UnlistKeeps(c1, qid);
      PostAllKeeps(Unlist(c1, qid, c1.sqs[qid].cqid), c1.sqs[qid].cqid);
    }
  }
}
