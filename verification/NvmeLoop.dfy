/** Controller and host together, down to the request lists: the controller of
    `NvmeController` reads its commands from the rings of `NvmeRings` and writes its
    completions there, and the host of `NvmeRings` rings its doorbells. */
module NvmeLoop {
  import opened Modular
  import opened NvmeQueues
  import opened NvmeQueueRuns
  import opened NvmeController
  import Rings = NvmeRings

  datatype Joint = Joint(c: Ctrl, s: Rings.System)

  // ---------------------------------------------------------------------------
  // What the two have in common
  // ---------------------------------------------------------------------------

  function CidsOf(l: seq<Rings.Cmd>): (r: seq<nat>)
    ensures |r| == |l|
  {
    seq(|l|, k requires 0 <= k < |l| => l[k].cid)
  }

  /** The entries of a completion queue that report on submission queue `i`. */
  function EntriesOf(l: seq<Rings.Cqe>, i: nat): seq<Rings.Cqe> {
    if l == [] then [] else EntriesOf(l[..|l| - 1], i) + (if l[|l| - 1].sqid == i then [l[|l| - 1]] else [])
  }

  /** Identifier and status, as the host reads them and as the controller gave them. */
  function Reported(l: seq<Rings.Cqe>): (r: seq<(nat, nat)>)
    ensures |r| == |l|
  {
    seq(|l|, k requires 0 <= k < |l| => (l[k].cid, l[k].status))
  }

  function Given(l: seq<Request>): (r: seq<(nat, nat)>)
    ensures |r| == |l|
  {
    seq(|l|, k requires 0 <= k < |l| => (l[k].cid, l[k].status))
  }

  predicate SqJoined(q: SQueue, r: Rings.SqRing) {
    q.cqid == r.cqid && q.size == r.size && q.head == r.head && q.tail == r.tail && q.fetched == CidsOf(r.fetched)
  }

  predicate CqJoined(q: CQueue, r: Rings.CqRing) {
    q.size == r.size && q.head == r.head && q.tail == r.tail && q.phase == r.phase && q.posted == r.posted
  }

  predicate AnswersPosted(c: Ctrl, i: nat)
    requires i in c.sqs
  {
    && c.sqs[i].cqid in c.cqs
    && Reported(EntriesOf(c.cqs[c.sqs[i].cqid].posted, i)) == Given(c.sqs[i].answered)
  }

  predicate Addressable(c: Ctrl, id: nat, size: nat) { id < c.params.numQueues && size <= 0x1_0000 }

  /** The same queues, registers and histories on both sides. */
  predicate SqsJoined(j: Joint) {
    && j.c.sqs.Keys == j.s.sqs.Keys
    && forall i :: i in j.c.sqs ==> SqJoined(j.c.sqs[i], j.s.sqs[i]) && Addressable(j.c, i, j.c.sqs[i].size)
  }

  predicate CqsJoined(j: Joint) {
    && j.c.cqs.Keys == j.s.cqs.Keys
    && forall k :: k in j.c.cqs ==> CqJoined(j.c.cqs[k], j.s.cqs[k]) && Addressable(j.c, k, j.c.cqs[k].size)
  }

  predicate AllAnswersPosted(c: Ctrl) {
    forall i :: i in c.sqs ==> AnswersPosted(c, i)
  }

  ghost predicate Matched(j: Joint) {
    SqsJoined(j) && CqsJoined(j) && AllAnswersPosted(j.c) && Rings.Inv(j.s)
  }

  ghost predicate JointInv(j: Joint) { Inv(j.c) && Matched(j) }

  lemma MatchedShaped(j: Joint)
    requires Matched(j)
    ensures Rings.Shaped(j.s)
    ensures forall i :: i in j.c.sqs ==> j.s.sqs[i].head < |j.s.sqs[i].memory|
  {
    Rings.InvShaped(j.s);
    forall i | i in j.c.sqs ensures j.s.sqs[i].head < |j.s.sqs[i].memory| {
      assert Rings.SqShaped(j.s.sqs[i]);
    }
  }

  // ---------------------------------------------------------------------------
  // One command is fetched
  // ---------------------------------------------------------------------------

  /** Fetching an ordinary command touches one submission queue, and nothing of the
      completion queues but the list and timer of its own. */
  lemma FetchOther(c: Ctrl, i: nat, cid: nat, a: Answer)
    requires Good(c) && AwakeBut(c, {i}) && i in c.sqs && c.sqs[i].reqList != []
    ensures
      var t := FetchOne(c, i, Fetched(cid, Other, a));
      && t.params == c.params && t.sqs.Keys == c.sqs.Keys && t.cqs.Keys == c.cqs.Keys
      && (forall o :: o in c.sqs && o != i ==> t.sqs[o] == c.sqs[o])
      && t.sqs[i] == c.sqs[i].(head := Wrap(c.sqs[i].head + 1, c.sqs[i].size), fetched := c.sqs[i].fetched + [cid],
                               reqList := t.sqs[i].reqList, outReqList := t.sqs[i].outReqList,
                               outcomes := t.sqs[i].outcomes)
      && (forall k :: k in c.cqs ==> t.cqs[k] == c.cqs[k].(reqList := t.cqs[k].reqList, timer := t.cqs[k].timer))
  {
    hide Good, AwakeBut;
    StartedKeeps(c, i, cid);
    var c1 := Started(c, i, cid);
    ExecutedKeeps(c1, i, Fetched(cid, Other, a));
    AnsweredKeeps(c1, i, a);
  }

  function FetchTurn(j: Joint, i: nat, a: Answer): Joint
    requires Good(j.c) && AwakeBut(j.c, {i}) && Matched(j) && i in j.c.sqs && j.c.sqs[i].reqList != []
  {
    MatchedShaped(j);
    var cmd := j.s.sqs[i].memory[j.s.sqs[i].head];
    Joint(FetchOne(j.c, i, Fetched(cmd.cid, Other, a)), Rings.Step(j.s, Rings.Fetch(i)))
  }

  lemma CidsAppend(l: seq<Rings.Cmd>, x: Rings.Cmd)
    ensures CidsOf(l + [x]) == CidsOf(l) + [x.cid]
  {
  }

  /** What fetching does to the rings. */
  lemma RingFetched(s: Rings.System, i: nat)
    requires Rings.Shaped(s) && i in s.sqs
    ensures s.sqs[i].size >= 1 && s.sqs[i].head < |s.sqs[i].memory|
    ensures
      !Rings.SqEmpty(s.sqs[i]) ==>
        Rings.Step(s, Rings.Fetch(i)) == s.(sqs := s.sqs[i := Rings.FetchEntry(s.sqs[i])])
  {
    hide Rings.FetchEntry;
    assert Rings.SqShaped(s.sqs[i]);
  }

  lemma FetchJoined(q: SQueue, r: Rings.SqRing, t: SQueue)
    requires SqJoined(q, r) && r.size >= 1 && r.head < |r.memory|
    requires t == q.(head := Wrap(q.head + 1, q.size), fetched := q.fetched + [r.memory[r.head].cid],
                     reqList := t.reqList, outReqList := t.outReqList, outcomes := t.outcomes)
    ensures SqJoined(t, Rings.FetchEntry(r))
  {
    hide CidsOf, Wrap;
    CidsAppend(r.fetched, r.memory[r.head]);
  }

  lemma FetchTurnSqs(j: Joint, i: nat, a: Answer)
    requires Good(j.c) && AwakeBut(j.c, {i}) && Matched(j) && i in j.c.sqs && j.c.sqs[i].reqList != []
    requires !SqEmpty(j.c.sqs[i])
    ensures SqsJoined(FetchTurn(j, i, a)) && CqsJoined(FetchTurn(j, i, a))
  {
    hide Good, AwakeBut, FetchOne, Rings.Inv, Rings.Step, Rings.FetchEntry, CidsOf, AllAnswersPosted, Wrap;
    MatchedShaped(j);
    var q := j.s.sqs[i];
    assert SqJoined(j.c.sqs[i], q);
    RingFetched(j.s, i);
    FetchOther(j.c, i, q.memory[q.head].cid, a);
    FetchJoined(j.c.sqs[i], q, FetchTurn(j, i, a).c.sqs[i]);
  }

  lemma FetchTurnKeeps(j: Joint, i: nat, a: Answer)
    requires Good(j.c) && AwakeBut(j.c, {i}) && Matched(j) && i in j.c.sqs && j.c.sqs[i].reqList != []
    requires !SqEmpty(j.c.sqs[i])
    ensures
      var t := FetchTurn(j, i, a);
      Good(t.c) && AwakeBut(t.c, {i}) && Matched(t) && i in t.c.sqs && t.c.params == j.c.params
  {
    hide Good, AwakeBut, FetchOne, Rings.Inv, Rings.Step, Reported, Given, EntriesOf, SqsJoined, CqsJoined;
    FetchTurnSqs(j, i, a);
    MatchedShaped(j);
    KeysMatch(j);
    var cmd := j.s.sqs[i].memory[j.s.sqs[i].head];
    FetchOneKeeps(j.c, i, Fetched(cmd.cid, Other, a));
    FetchOther(j.c, i, cmd.cid, a);
    Rings.StepKeepsInv(j.s, Rings.Fetch(i));
  }

  lemma KeysMatch(j: Joint)
    requires Matched(j)
    ensures j.c.sqs.Keys == j.s.sqs.Keys && j.c.cqs.Keys == j.s.cqs.Keys
  {
  }

  /** Commands are fetched until the ring is empty, no request is free, or the burst is
      used up. */
  function FetchTurns(j: Joint, i: nat, answers: nat -> Answer, n: nat, budget: nat): Joint
    requires Good(j.c) && AwakeBut(j.c, {i}) && Matched(j) && i in j.c.sqs
    decreases budget
  {
    if budget == 0 || SqEmpty(j.c.sqs[i]) || j.c.sqs[i].reqList == [] then j
    else
      FetchTurnKeeps(j, i, answers(n));
      FetchTurns(FetchTurn(j, i, answers(n)), i, answers, n + 1, budget - 1)
  }

  lemma {:induction false} FetchTurnsKeeps(j: Joint, i: nat, answers: nat -> Answer, n: nat, budget: nat)
    requires Good(j.c) && AwakeBut(j.c, {i}) && Matched(j) && i in j.c.sqs
    ensures
      var t := FetchTurns(j, i, answers, n, budget);
      Good(t.c) && AwakeBut(t.c, {i}) && Matched(t) && i in t.c.sqs && t.c.params == j.c.params
    decreases budget
  {
    hide Good, AwakeBut, Matched, FetchTurn;
    if !(budget == 0 || SqEmpty(j.c.sqs[i]) || j.c.sqs[i].reqList == []) {
      FetchTurnKeeps(j, i, answers(n));
      FetchTurnsKeeps(FetchTurn(j, i, answers(n)), i, answers, n + 1, budget - 1);
    }
  }

  // ---------------------------------------------------------------------------
  // The controller of `NvmeController`, fed from memory
  // ---------------------------------------------------------------------------

  /** The commands in a ring, from its head on. */
  function FromMemory(r: Rings.SqRing, answers: nat -> Answer): nat -> Fetched
    requires |r.memory| == r.size >= 1
  {
    (n: nat) => Fetched(r.memory[Wrap(r.head + n, r.size)].cid, Other, answers(n))
  }

  /** One turn fetches the command that the environment names. */
  lemma FetchTurnIsOne(j: Joint, i: nat, answers: nat -> Answer, n: nat, r: Rings.SqRing)
    requires Good(j.c) && AwakeBut(j.c, {i}) && Matched(j) && i in j.c.sqs && j.c.sqs[i].reqList != []
    requires i in j.s.sqs && j.s.sqs[i].memory == r.memory && |r.memory| == r.size >= 2
    requires j.s.sqs[i].head == Wrap(r.head + n, r.size)
    ensures FetchTurn(j, i, answers(n)).c == FetchOne(j.c, i, FromMemory(r, answers)(n))
  {
    hide Good, AwakeBut, Matched, FetchOne, Wrap;
  }

  /** The joint run fetches what the controller's own loop fetches from the ring. */
  lemma {:induction false} FetchTurnsIsLoop(j: Joint, i: nat, answers: nat -> Answer, n: nat, budget: nat,
                                            r: Rings.SqRing)
    requires Good(j.c) && AwakeBut(j.c, {i}) && Matched(j) && i in j.c.sqs && i in j.s.sqs
    requires j.s.sqs[i].memory == r.memory && j.s.sqs[i].size == r.size == |r.memory| && r.size >= 2
    requires j.s.sqs[i].head == Wrap(r.head + n, r.size)
    ensures FetchTurns(j, i, answers, n, budget).c == FetchLoop(j.c, i, FromMemory(r, answers), n, budget)
    decreases budget
  {
    hide Good, AwakeBut, Matched, FetchOne, FetchTurn, FromMemory, Wrap, SqEmpty;
    if !(budget == 0 || SqEmpty(j.c.sqs[i]) || j.c.sqs[i].reqList == []) {
      FetchTurnKeeps(j, i, answers(n));
      var t := FetchTurn(j, i, answers(n));
      FetchTurnRing(j, i, answers(n));
      FetchTurnIsOne(j, i, answers, n, r);
      WrapOfWrap(r.head + n, 1, r.size);
      FetchTurnsIsLoop(t, i, answers, n + 1, budget - 1, r);
    }
  }

  lemma FetchTurnRing(j: Joint, i: nat, a: Answer)
    requires Good(j.c) && AwakeBut(j.c, {i}) && Matched(j) && i in j.c.sqs && j.c.sqs[i].reqList != []
    requires !SqEmpty(j.c.sqs[i])
    ensures i in j.s.sqs && i in FetchTurn(j, i, a).s.sqs
    ensures
      var r, t := j.s.sqs[i], FetchTurn(j, i, a).s.sqs[i];
      r.size >= 1 && t == r.(head := Wrap(r.head + 1, r.size), fetched := t.fetched)
  {
    hide Good, AwakeBut, FetchOne, Rings.Inv, CqsJoined, AllAnswersPosted;
    MatchedShaped(j);
    assert SqJoined(j.c.sqs[i], j.s.sqs[i]);
  }

  // ---------------------------------------------------------------------------
  // Completions are posted
  // ---------------------------------------------------------------------------

  lemma FirstWaiting(c: Ctrl, k: nat)
    requires Structured(c) && k in c.cqs && c.cqs[k].reqList != []
    ensures c.cqs[k].reqList[0].sqid in c.sqs && c.sqs[c.cqs[k].reqList[0].sqid].cqid == k
  {
    assert CqGood(c, k);
    assert Names(c, c.cqs[k].reqList[0].sqid, k);
  }

  function PostTurn(j: Joint, k: nat): Joint
    requires Structured(j.c) && Matched(j) && k in j.c.cqs && j.c.cqs[k].reqList != []
  {
    MatchedShaped(j);
    FirstWaiting(j.c, k);
    var r := j.c.cqs[k].reqList[0];
    Joint(PostOne(j.c, k), Rings.Step(j.s, Rings.Post(r.sqid, r.cid, r.status)))
  }

  lemma EntriesAppend(l: seq<Rings.Cqe>, e: Rings.Cqe, i: nat)
    ensures EntriesOf(l + [e], i) == EntriesOf(l, i) + (if e.sqid == i then [e] else [])
  {
    assert (l + [e])[..|l|] == l;
  }

  lemma PairsAppend(l: seq<Rings.Cqe>, e: Rings.Cqe, rs: seq<Request>, r: Request)
    ensures Reported(l + [e]) == Reported(l) + [(e.cid, e.status)] && Reported(l + []) == Reported(l)
    ensures Given(rs + [r]) == Given(rs) + [(r.cid, r.status)]
  {
    assert l + [] == l;
  }

  /** What posting does to the controller. */
  lemma PostedOne(c: Ctrl, k: nat)
    requires Structured(c) && k in c.cqs && c.cqs[k].reqList != []
    ensures
      var r := c.cqs[k].reqList[0];
      && r.sqid in c.sqs && c.sqs[r.sqid].cqid == k
      && var t, q, cq := PostOne(c, k), c.sqs[r.sqid], c.cqs[k];
      && t.params == c.params && t.sqs.Keys == c.sqs.Keys && t.cqs.Keys == c.cqs.Keys
      && (forall o :: o in c.sqs && o != r.sqid ==> t.sqs[o] == c.sqs[o])
      && (forall o :: o in c.cqs && o != k ==> t.cqs[o] == c.cqs[o])
      && t.sqs[r.sqid] == q.(reqList := t.sqs[r.sqid].reqList, answered := q.answered + [r])
      && t.cqs[k].posted == cq.posted + [Rings.Cqe(r.cid, r.sqid, q.head, r.status, cq.phase)]
      && t.cqs[k].size == cq.size && t.cqs[k].head == cq.head
      && t.cqs[k].tail == (if cq.tail + 1 >= cq.size then 0 else cq.tail + 1)
      && t.cqs[k].phase == (if cq.tail + 1 >= cq.size then !cq.phase else cq.phase)
  {
    hide Structured;
    FirstWaiting(c, k);
  }

  lemma PostTurnAnswers(c: Ctrl, k: nat)
    requires Structured(c) && k in c.cqs && c.cqs[k].reqList != [] && AllAnswersPosted(c)
    ensures c.cqs[k].reqList[0].sqid in c.sqs && AllAnswersPosted(PostOne(c, k))
  {
    hide Structured, PostOne, EntriesOf, Reported, Given;
    PostedOne(c, k);
    var t, r := PostOne(c, k), c.cqs[k].reqList[0];
    forall i | i in t.sqs ensures AnswersPosted(t, i) {
      assert AnswersPosted(c, i);
      var e := Rings.Cqe(r.cid, r.sqid, c.sqs[r.sqid].head, r.status, c.cqs[k].phase);
      EntriesAppend(c.cqs[k].posted, e, i);
      PairsAppend(EntriesOf(c.cqs[k].posted, i), e, c.sqs[i].answered, r);
    }
  }

  /** What posting does to the rings. */
  lemma RingPosted(s: Rings.System, i: nat, cid: nat, status: nat)
    requires Rings.Shaped(s) && i in s.sqs && s.sqs[i].cqid in s.cqs
    ensures s.cqs[s.sqs[i].cqid].size >= 1 && s.cqs[s.sqs[i].cqid].tail < |s.cqs[s.sqs[i].cqid].memory|
    ensures
      var k, t := s.sqs[i].cqid, Rings.Step(s, Rings.Post(i, cid, status));
      var entry := Rings.PostEntry(s.cqs[k], cid, i, s.sqs[i].head, status, |s.sqs[i].fetched|);
      !Rings.CqFull(s.cqs[k]) ==> t == s.(cqs := s.cqs[k := entry])
  {
    hide Rings.PostEntry, Rings.CqFull;
    assert Rings.CqShaped(s.cqs[s.sqs[i].cqid]);
  }

  /** The entry of both sides is the same. */
  lemma EntryJoined(q: CQueue, r: Rings.CqRing, t: CQueue, x: Request, head: nat, fetches: nat)
    requires CqJoined(q, r) && r.tail < |r.memory| && t.size == q.size && t.head == q.head
    requires t.posted == q.posted + [Rings.Cqe(x.cid, x.sqid, head, x.status, q.phase)]
    requires t.tail == (if q.tail + 1 >= q.size then 0 else q.tail + 1)
    requires t.phase == (if q.tail + 1 >= q.size then !q.phase else q.phase)
    ensures CqJoined(t, Rings.PostEntry(r, x.cid, x.sqid, head, x.status, fetches))
  {
  }

  lemma PostTurnSqs(j: Joint, k: nat)
    requires Structured(j.c) && Matched(j) && k in j.c.cqs && j.c.cqs[k].reqList != [] && !CqFull(j.c.cqs[k])
    ensures SqsJoined(PostTurn(j, k))
  {
    hide Structured, PostOne, Rings.Inv, AllAnswersPosted, CqsJoined, CidsOf, CqFull, Rings.CqFull, Rings.PostEntry;
    MatchedShaped(j);
    KeysMatch(j);
    PostedOne(j.c, k);
    var r := j.c.cqs[k].reqList[0];
    assert SqJoined(j.c.sqs[r.sqid], j.s.sqs[r.sqid]);
    RingPosted(j.s, r.sqid, r.cid, r.status);
  }

  lemma PostTurnCqs(j: Joint, k: nat)
    requires Structured(j.c) && Matched(j) && k in j.c.cqs && j.c.cqs[k].reqList != [] && !CqFull(j.c.cqs[k])
    ensures CqsJoined(PostTurn(j, k))
  {
    hide Structured, PostOne, Rings.Inv, Rings.Shaped, AllAnswersPosted, CidsOf, Wrap, Rings.PostEntry, Rings.Step;
    MatchedShaped(j);
    PostedOne(j.c, k);
    var x := j.c.cqs[k].reqList[0];
    var q := j.s.sqs[x.sqid];
    assert SqJoined(j.c.sqs[x.sqid], q) && CqJoined(j.c.cqs[k], j.s.cqs[k]);
    RingPosted(j.s, x.sqid, x.cid, x.status);
    EntryJoined(j.c.cqs[k], j.s.cqs[k], PostOne(j.c, k).cqs[k], x, q.head, |q.fetched|);
  }

  lemma PostTurnJoined(j: Joint, k: nat)
    requires Structured(j.c) && Matched(j) && k in j.c.cqs && j.c.cqs[k].reqList != [] && !CqFull(j.c.cqs[k])
    ensures SqsJoined(PostTurn(j, k)) && CqsJoined(PostTurn(j, k))
  {
    hide *;
    PostTurnSqs(j, k);
    PostTurnCqs(j, k);
  }

  lemma PostTurnKeeps(j: Joint, k: nat)
    requires Structured(j.c) && Matched(j) && k in j.c.cqs && j.c.cqs[k].reqList != [] && !CqFull(j.c.cqs[k])
    ensures Structured(PostTurn(j, k).c) && Matched(PostTurn(j, k)) && k in PostTurn(j, k).c.cqs
    ensures |PostTurn(j, k).c.cqs[k].reqList| < |j.c.cqs[k].reqList|
  {
    PostTurnJoined(j, k);
    hide Structured, Rings.Inv, Rings.Step, AllAnswersPosted, SqsJoined, CqsJoined;
    MatchedShaped(j);
    FirstWaiting(j.c, k);
    PostTurnAnswers(j.c, k);
    PostStep(j.c, k);
    var r := j.c.cqs[k].reqList[0];
    Rings.StepKeepsInv(j.s, Rings.Post(r.sqid, r.cid, r.status));
  }

  /** Completions are posted until none waits or the ring is full. */
  function PostTurns(j: Joint, k: nat): Joint
    requires Structured(j.c) && Matched(j) && k in j.c.cqs
    decreases if k in j.c.cqs then |j.c.cqs[k].reqList| else 0
  {
    if j.c.cqs[k].reqList == [] || CqFull(j.c.cqs[k]) then j
    else
      PostTurnKeeps(j, k);
      PostTurns(PostTurn(j, k), k)
  }

  lemma {:induction false} PostTurnsKeeps(j: Joint, k: nat)
    requires Structured(j.c) && Matched(j) && k in j.c.cqs
    ensures Postable(j.c, k)
    ensures Matched(PostTurns(j, k)) && PostTurns(j, k).c == PostAll(j.c, k)
    decreases if k in j.c.cqs then |j.c.cqs[k].reqList| else 0
  {
    hide Structured, Matched, CqFull;
    StructuredPostable(j.c, k);
    if !(j.c.cqs[k].reqList == [] || CqFull(j.c.cqs[k])) {
      PostTurnKeeps(j, k);
      PostTurnsKeeps(PostTurn(j, k), k);
    }
  }

  // ---------------------------------------------------------------------------
  // Queues are opened
  // ---------------------------------------------------------------------------

  /** A completion queue is created; the host has cleared its memory. */
  function OpenCq(j: Joint, k: nat, memory: seq<Rings.Cqe>): Joint
    requires |memory| >= 2
  {
    var size := |memory|;
    Joint(AddCq(j.c, k, size),
          j.s.(cqs := j.s.cqs[k := Rings.CqRing(size, 0, 0, true, memory, 0, true, [], [], 0, [])]))
  }

  /** A submission queue is created. */
  function OpenSq(j: Joint, i: nat, k: nat, memory: seq<Rings.Cmd>, burst: nat): Joint
    requires |memory| >= 2 && k in j.c.cqs
  {
    var size := |memory|;
    Joint(AddSq(j.c, i, k, size, burst),
          j.s.(sqs := j.s.sqs[i := Rings.SqRing(k, size, 0, 0, memory, 0, 0, [], [], 0, 0)]))
  }

  lemma NewCqRing(s: Rings.System, k: nat, q: Rings.CqRing)
    requires Rings.Inv(s) && k !in s.cqs && Rings.CqInv(q) && q.posted == []
    ensures Rings.Inv(s.(cqs := s.cqs[k := q]))
  {
    hide Rings.SqInv, Rings.SlotsHold, Rings.TagOf, Wrap;
    var t := s.(cqs := s.cqs[k := q]);
    forall l | l in t.cqs ensures Rings.HeadsRight(t, l) {
      if l != k { assert Rings.HeadsRight(s, l); }
    }
  }

  lemma NewSqRing(s: Rings.System, i: nat, q: Rings.SqRing)
    requires Rings.Inv(s) && i !in s.sqs && Rings.SqInv(q)
    ensures Rings.Inv(s.(sqs := s.sqs[i := q]))
  {
    hide Rings.SqInv, Rings.SlotsHold, Rings.TagOf, Wrap;
    var t := s.(sqs := s.sqs[i := q]);
    forall l | l in t.cqs ensures Rings.HeadsRight(t, l) {
      assert Rings.HeadsRight(s, l);
      var c := s.cqs[l];
      forall k | 0 <= k < |c.posted|
        ensures Rings.HeadRight(t.sqs, c.posted[k], c.heads[k], l, k >= |c.consumed|)
      {
        assert Rings.HeadRight(s.sqs, c.posted[k], c.heads[k], l, k >= |c.consumed|);
      }
    }
  }

  lemma {:induction false} NoEntries(l: seq<Rings.Cqe>, i: nat)
    requires forall k :: 0 <= k < |l| ==> l[k].sqid != i
    ensures EntriesOf(l, i) == []
  {
    if l != [] {
      NoEntries(l[..|l| - 1], i);
    }
  }

  /** Nothing has been posted for a queue that does not exist. */
  lemma NothingPostedFor(j: Joint, i: nat, k: nat)
    requires Matched(j) && i !in j.c.sqs && k in j.c.cqs
    ensures EntriesOf(j.c.cqs[k].posted, i) == []
  {
    hide Rings.SqInv, Rings.SlotsHold, Rings.TagOf, Wrap;
    var q := j.s.cqs[k];
    assert Rings.HeadsRight(j.s, k) && CqJoined(j.c.cqs[k], q);
    forall n | 0 <= n < |q.posted| ensures q.posted[n].sqid != i {
      assert Rings.HeadRight(j.s.sqs, q.posted[n], q.heads[n], k, n >= |q.consumed|);
    }
    NoEntries(q.posted, i);
  }

  lemma FreshCqRing(memory: seq<Rings.Cqe>)
    requires 2 <= |memory| && forall n :: 0 <= n < |memory| ==> !memory[n].phase
    ensures Rings.CqInv(Rings.CqRing(|memory|, 0, 0, true, memory, 0, true, [], [], 0, []))
  {
  }

  lemma OpenCqJoined(j: Joint, k: nat, memory: seq<Rings.Cqe>)
    requires JointInv(j) && k !in j.c.cqs && 2 <= |memory| && Addressable(j.c, k, |memory|)
    ensures
      var t := OpenCq(j, k, memory);
      SqsJoined(t) && CqsJoined(t) && AllAnswersPosted(t.c) && AwakeBut(t.c, {})
  {
    hide Good, Rings.Inv, CqFull, EntriesOf;
    forall i | i in j.c.sqs ensures AnswersPosted(OpenCq(j, k, memory).c, i) {
      assert AnswersPosted(j.c, i);
    }
  }

  lemma OpenCqKeeps(j: Joint, k: nat, memory: seq<Rings.Cqe>)
    requires JointInv(j) && k !in j.c.cqs && 2 <= |memory| && Addressable(j.c, k, |memory|)
    requires forall n :: 0 <= n < |memory| ==> !memory[n].phase
    ensures JointInv(OpenCq(j, k, memory))
  {
    hide Good, AwakeBut, Rings.Inv, Rings.CqInv, SqsJoined, CqsJoined, AllAnswersPosted, AddCq;
    FreshCqRing(memory);
    KeysMatch(j);
    AddCqKeeps(j.c, k, |memory|);
    OpenCqJoined(j, k, memory);
    NewCqRing(j.s, k, OpenCq(j, k, memory).s.cqs[k]);
  }

  lemma FreshRing(k: nat, memory: seq<Rings.Cmd>)
    requires |memory| >= 2
    ensures Rings.SqInv(Rings.SqRing(k, |memory|, 0, 0, memory, 0, 0, [], [], 0, 0))
  {
  }

  /** What creating a submission queue leaves alone. */
  lemma AddedSq(c: Ctrl, i: nat, k: nat, size: RingSize, burst: nat)
    requires i !in c.sqs && k in c.cqs
    ensures
      var t := AddSq(c, i, k, size, burst);
      && t.sqs.Keys == c.sqs.Keys + {i} && t.cqs.Keys == c.cqs.Keys
      && t.sqs[i].cqid == k && t.sqs[i].answered == []
      && (forall o :: o in c.sqs ==> t.sqs[o] == c.sqs[o])
      && (forall l :: l in c.cqs ==> t.cqs[l].posted == c.cqs[l].posted)
  {
    hide FreeRequests;
  }

  lemma OpenSqAnswers(j: Joint, i: nat, k: nat, memory: seq<Rings.Cmd>, burst: nat)
    requires Matched(j) && i !in j.c.sqs && k in j.c.cqs && 2 <= |memory|
    ensures AllAnswersPosted(OpenSq(j, i, k, memory, burst).c)
  {
    NothingPostedFor(j, i, k);
    hide Rings.Inv, EntriesOf, AddSq, SqsJoined, CqsJoined;
    AddedSq(j.c, i, k, |memory|, burst);
    forall o | o in j.c.sqs ensures AnswersPosted(OpenSq(j, i, k, memory, burst).c, o) {
      assert AnswersPosted(j.c, o);
    }
  }

  lemma OpenSqJoined(j: Joint, i: nat, k: nat, memory: seq<Rings.Cmd>, burst: nat)
    requires Matched(j) && i !in j.c.sqs && k in j.c.cqs && 2 <= |memory| && Addressable(j.c, i, |memory|)
    ensures SqsJoined(OpenSq(j, i, k, memory, burst)) && CqsJoined(OpenSq(j, i, k, memory, burst))
  {
    hide Rings.Inv, AllAnswersPosted, FreeRequests;
  }

  lemma OpenSqAwake(c: Ctrl, i: nat, k: nat, size: RingSize, burst: nat)
    requires AwakeBut(c, {}) && k in c.cqs
    ensures AwakeBut(AddSq(c, i, k, size, burst), {})
  {
    hide FreeRequests, Wrap;
  }

  lemma OpenSqKeeps(j: Joint, i: nat, k: nat, memory: seq<Rings.Cmd>, burst: nat)
    requires JointInv(j) && i !in j.c.sqs && k in j.c.cqs && 2 <= |memory| && Addressable(j.c, i, |memory|)
    ensures JointInv(OpenSq(j, i, k, memory, burst))
  {
    hide Good, AwakeBut, Rings.Inv, Rings.SqInv, SqsJoined, CqsJoined, AllAnswersPosted, AddSq;
    FreshRing(k, memory);
    KeysMatch(j);
    AddSqKeeps(j.c, i, k, |memory|, burst);
    OpenSqAwake(j.c, i, k, |memory|, burst);
    OpenSqJoined(j, i, k, memory, burst);
    OpenSqAnswers(j, i, k, memory, burst);
    NewSqRing(j.s, i, OpenSq(j, i, k, memory, burst).s.sqs[i]);
  }

  // ---------------------------------------------------------------------------
  // What each side does alone
  // ---------------------------------------------------------------------------

  /** Nothing that the two sides have in common has changed. */
  predicate SameRings(c: Ctrl, t: Ctrl) {
    && t.params == c.params && t.sqs.Keys == c.sqs.Keys && t.cqs.Keys == c.cqs.Keys
    && (forall i :: i in c.sqs ==> SameSq(c.sqs[i], t.sqs[i]))
    && (forall k :: k in c.cqs ==> SameCq(c.cqs[k], t.cqs[k]))
  }

  predicate SameSq(q: SQueue, t: SQueue) {
    t == q.(reqList := t.reqList, outReqList := t.outReqList, timer := t.timer, outcomes := t.outcomes)
  }

  predicate SameCq(q: CQueue, t: CQueue) { t == q.(reqList := t.reqList, timer := t.timer) }

  lemma SameRingsMatch(j: Joint, t: Ctrl)
    requires Matched(j) && SameRings(j.c, t)
    ensures Matched(j.(c := t))
  {
    hide Rings.Inv, EntriesOf, CidsOf, Reported, Given;
    forall i | i in j.c.sqs
      ensures AnswersPosted(t, i) && SqJoined(t.sqs[i], j.s.sqs[i]) && Addressable(t, i, t.sqs[i].size)
    {
      assert AnswersPosted(j.c, i) && SameSq(j.c.sqs[i], t.sqs[i]) && SqJoined(j.c.sqs[i], j.s.sqs[i]);
      assert SameCq(j.c.cqs[j.c.sqs[i].cqid], t.cqs[j.c.sqs[i].cqid]);
    }
    forall k | k in j.c.cqs ensures CqJoined(t.cqs[k], j.s.cqs[k]) && Addressable(t, k, t.cqs[k].size) {
      assert SameCq(j.c.cqs[k], t.cqs[k]) && CqJoined(j.c.cqs[k], j.s.cqs[k]);
    }
  }

  lemma SetTimerSame(c: Ctrl, i: nat, on: bool)
    requires i in c.sqs
    ensures SameRings(c, SetTimer(c, i, on))
  {
  }

  lemma ClearTimerSame(c: Ctrl, k: nat)
    requires k in c.cqs
    ensures SameRings(c, ClearCqTimer(c, k))
  {
  }

  lemma CompleteSame(c: Ctrl, i: nat, n: nat, status: nat, o: Outcome)
    requires i in c.sqs && c.sqs[i].cqid in c.cqs && n < |c.sqs[i].outReqList|
    ensures SameRings(c, Complete(c, i, n, status, o))
  {
  }

  /** The host writes a command, or takes a completion. */
  predicate HostOnly(s: Rings.System, t: Rings.System) {
    && t.sqs.Keys == s.sqs.Keys && t.cqs.Keys == s.cqs.Keys
    && (forall i :: i in s.sqs ==> HostSqOnly(s.sqs[i], t.sqs[i]))
    && (forall k :: k in s.cqs ==> HostCqOnly(s.cqs[k], t.cqs[k]))
  }

  predicate HostSqOnly(q: Rings.SqRing, t: Rings.SqRing) {
    t == q.(memory := t.memory, hostTail := t.hostTail, hostHead := t.hostHead, submitted := t.submitted,
            known := t.known)
  }

  predicate HostCqOnly(q: Rings.CqRing, t: Rings.CqRing) {
    t == q.(hostHead := t.hostHead, hostPhase := t.hostPhase, consumed := t.consumed)
  }

  lemma HostMoves(s: Rings.System, e: Rings.Event)
    requires Rings.Shaped(s) && (e.Submit? || e.Consume?)
    ensures HostOnly(s, Rings.Step(s, e))
  {
  }

  lemma HostKeeps(j: Joint, e: Rings.Event)
    requires Matched(j) && (e.Submit? || e.Consume?)
    ensures Rings.Shaped(j.s) && Matched(j.(s := Rings.Step(j.s, e)))
  {
    hide Rings.Inv, Rings.Shaped, Rings.Step, CidsOf, AllAnswersPosted;
    MatchedShaped(j);
    HostMoves(j.s, e);
    Rings.StepKeepsInv(j.s, e);
    var t := Rings.Step(j.s, e);
    forall i | i in j.c.sqs ensures SqJoined(j.c.sqs[i], t.sqs[i]) {
      assert SqJoined(j.c.sqs[i], j.s.sqs[i]) && HostSqOnly(j.s.sqs[i], t.sqs[i]);
    }
    forall k | k in j.c.cqs ensures CqJoined(j.c.cqs[k], t.cqs[k]) {
      assert CqJoined(j.c.cqs[k], j.s.cqs[k]) && HostCqOnly(j.s.cqs[k], t.cqs[k]);
    }
  }

  // ---------------------------------------------------------------------------
  // Doorbells
  // ---------------------------------------------------------------------------

  /** The host writes its own index to the doorbell of a submission queue. */
  function TailDoorbell(j: Joint, i: nat): Joint
    requires Rings.Shaped(j.s) && i in j.s.sqs
  {
    Joint(RingTail(j.c, i, j.s.sqs[i].hostTail), Rings.Step(j.s, Rings.RingTail(i)))
  }

  function HeadDoorbell(j: Joint, k: nat): Joint
    requires Rings.Shaped(j.s) && k in j.s.cqs
  {
    Joint(RingHead(j.c, k, j.s.cqs[k].hostHead), Rings.Step(j.s, Rings.RingHead(k)))
  }

  lemma TailRung(c: Ctrl, i: nat, value: nat)
    requires ValidSq(c, i) && value < c.sqs[i].size <= 0x1_0000
    ensures
      var t := RingTail(c, i, value);
      && t.params == c.params && t.sqs.Keys == c.sqs.Keys && t.cqs == c.cqs
      && (forall o :: o in c.sqs && o != i ==> t.sqs[o] == c.sqs[o])
      && t.sqs[i] == c.sqs[i].(tail := value, timer := t.sqs[i].timer)
  {
  }

  lemma TailAnswers(c: Ctrl, i: nat, value: nat)
    requires AllAnswersPosted(c) && ValidSq(c, i) && value < c.sqs[i].size <= 0x1_0000
    ensures AllAnswersPosted(RingTail(c, i, value))
  {
    hide RingTail, EntriesOf, Reported, Given;
    TailRung(c, i, value);
    forall o | o in c.sqs ensures AnswersPosted(RingTail(c, i, value), o) {
      assert AnswersPosted(c, o);
    }
  }

  lemma TailJoined(q: SQueue, r: Rings.SqRing, t: SQueue)
    requires SqJoined(q, r) && t == q.(tail := r.hostTail, timer := t.timer)
    ensures SqJoined(t, r.(tail := r.hostTail, rung := |r.submitted|))
  {
  }

  /** The doorbell has been taken. */
  lemma TailTaken(j: Joint, i: nat)
    requires Matched(j) && i in j.s.sqs
    ensures Rings.Shaped(j.s) && i in j.c.sqs && ValidSq(j.c, i) && j.s.sqs[i].hostTail < j.c.sqs[i].size <= 0x1_0000
  {
    hide Rings.Inv, Rings.Shaped, CidsOf, AllAnswersPosted, CqJoined;
    MatchedShaped(j);
    assert SqJoined(j.c.sqs[i], j.s.sqs[i]) && Addressable(j.c, i, j.c.sqs[i].size);
    InRing(j.s, i);
  }

  lemma TailDoorbellSqs(j: Joint, i: nat)
    requires Matched(j) && i in j.s.sqs
    ensures Rings.Shaped(j.s) && SqsJoined(TailDoorbell(j, i))
  {
    hide Rings.Inv, Rings.Shaped, CidsOf, AllAnswersPosted, RingTail, CqsJoined;
    TailTaken(j, i);
    TailRung(j.c, i, j.s.sqs[i].hostTail);
    var t := TailDoorbell(j, i);
    assert SqJoined(j.c.sqs[i], j.s.sqs[i]);
    TailJoined(j.c.sqs[i], j.s.sqs[i], t.c.sqs[i]);
    forall o | o in t.c.sqs
      ensures SqJoined(t.c.sqs[o], t.s.sqs[o]) && Addressable(t.c, o, t.c.sqs[o].size)
    {
      assert SqJoined(j.c.sqs[o], j.s.sqs[o]);
    }
  }

  lemma TailDoorbellJoined(j: Joint, i: nat)
    requires Matched(j) && i in j.s.sqs
    ensures Rings.Shaped(j.s)
    ensures var t := TailDoorbell(j, i); SqsJoined(t) && CqsJoined(t) && AllAnswersPosted(t.c)
  {
    hide Rings.Inv, Rings.Shaped, AllAnswersPosted, RingTail, CqJoined, SqsJoined;
    TailTaken(j, i);
    TailRung(j.c, i, j.s.sqs[i].hostTail);
    TailAnswers(j.c, i, j.s.sqs[i].hostTail);
    TailDoorbellSqs(j, i);
  }

  lemma InRing(s: Rings.System, i: nat)
    requires Rings.Shaped(s) && i in s.sqs
    ensures s.sqs[i].hostTail < s.sqs[i].size
  {
    assert Rings.SqShaped(s.sqs[i]);
  }

  lemma TailDoorbellKeeps(j: Joint, i: nat)
    requires JointInv(j) && i in j.s.sqs
    ensures Rings.Shaped(j.s) && JointInv(TailDoorbell(j, i))
  {
    hide Good, AwakeBut, Rings.Inv, SqsJoined, CqsJoined, AllAnswersPosted, RingTail, Rings.Step;
    TailDoorbellJoined(j, i);
    RingTailKeeps(j.c, i, j.s.sqs[i].hostTail);
    Rings.StepKeepsInv(j.s, Rings.RingTail(i));
  }

  lemma HeadRung(c: Ctrl, k: nat, value: nat)
    requires ValidCq(c, k) && value < c.cqs[k].size <= 0x1_0000
    ensures
      var t := RingHead(c, k, value);
      && t.params == c.params && t.sqs.Keys == c.sqs.Keys && t.cqs.Keys == c.cqs.Keys
      && (forall i :: i in c.sqs ==> SameSq(c.sqs[i], t.sqs[i]))
      && (forall l :: l in c.cqs && l != k ==> t.cqs[l] == c.cqs[l])
      && t.cqs[k] == c.cqs[k].(head := value, timer := t.cqs[k].timer)
  {
    hide CqFull;
  }

  lemma HeadAnswers(c: Ctrl, k: nat, value: nat)
    requires AllAnswersPosted(c) && ValidCq(c, k) && value < c.cqs[k].size <= 0x1_0000
    ensures AllAnswersPosted(RingHead(c, k, value))
  {
    hide RingHead, EntriesOf, Reported, Given;
    HeadRung(c, k, value);
    forall i | i in c.sqs ensures AnswersPosted(RingHead(c, k, value), i) {
      assert AnswersPosted(c, i) && SameSq(c.sqs[i], RingHead(c, k, value).sqs[i]);
    }
  }

  lemma HeadDoorbellJoined(j: Joint, k: nat)
    requires Matched(j) && k in j.s.cqs
    ensures Rings.Shaped(j.s)
    ensures var t := HeadDoorbell(j, k); SqsJoined(t) && CqsJoined(t) && AllAnswersPosted(t.c)
  {
    hide Rings.Inv, CidsOf, AllAnswersPosted, RingHead, Wrap;
    MatchedShaped(j);
    assert CqJoined(j.c.cqs[k], j.s.cqs[k]) && Addressable(j.c, k, j.c.cqs[k].size);
    assert Rings.CqShaped(j.s.cqs[k]);
    HeadRung(j.c, k, j.s.cqs[k].hostHead);
    HeadAnswers(j.c, k, j.s.cqs[k].hostHead);
    var t := HeadDoorbell(j, k);
    forall i | i in t.c.sqs
      ensures SqJoined(t.c.sqs[i], t.s.sqs[i]) && Addressable(t.c, i, t.c.sqs[i].size)
    {
      assert SqJoined(j.c.sqs[i], j.s.sqs[i]) && SameSq(j.c.sqs[i], t.c.sqs[i]);
    }
  }

  lemma HeadDoorbellKeeps(j: Joint, k: nat)
    requires JointInv(j) && k in j.s.cqs
    ensures Rings.Shaped(j.s) && JointInv(HeadDoorbell(j, k))
  {
    hide Good, AwakeBut, Rings.Inv, SqsJoined, CqsJoined, AllAnswersPosted, RingHead, Rings.Step;
    HeadDoorbellJoined(j, k);
    RingHeadKeeps(j.c, k, j.s.cqs[k].hostHead);
    Rings.StepKeepsInv(j.s, Rings.RingHead(k));
  }

  // ---------------------------------------------------------------------------
  // Timers and I/O
  // ---------------------------------------------------------------------------

  lemma TimerFired(j: Joint, i: nat)
    requires JointInv(j) && i in j.c.sqs
    ensures
      var t := j.(c := SetTimer(j.c, i, false));
      Good(t.c) && AwakeBut(t.c, {i}) && Matched(t) && i in t.c.sqs
  {
    hide Good, AwakeBut, Matched, SameRings;
    AwakeLess(j.c, i);
    SetTimerKeeps(j.c, i, false);
    AwakeLess(SetTimer(j.c, i, false), i);
    SetTimerSame(j.c, i, false);
    SameRingsMatch(j, SetTimer(j.c, i, false));
  }

  /** A submission queue's timer fires: the commands are those in the host's memory. */
  function FetchBurst(j: Joint, i: nat, answers: nat -> Answer): Joint
    requires JointInv(j) && i in j.c.sqs
  {
    TimerFired(j, i);
    var j1 := j.(c := SetTimer(j.c, i, false));
    FetchTurnsKeeps(j1, i, answers, 0, j.c.sqs[i].arbBurst);
    var t := FetchTurns(j1, i, answers, 0, j.c.sqs[i].arbBurst);
    if SqEmpty(t.c.sqs[i]) then t else t.(c := SetTimer(t.c, i, true))
  }

  lemma FetchBurstKeeps(j: Joint, i: nat, answers: nat -> Answer)
    requires JointInv(j) && i in j.c.sqs
    ensures JointInv(FetchBurst(j, i, answers))
  {
    hide Good, CqAwake, Matched, FetchTurns, SameRings;
    TimerFired(j, i);
    var j1 := j.(c := SetTimer(j.c, i, false));
    FetchTurnsKeeps(j1, i, answers, 0, j.c.sqs[i].arbBurst);
    var t := FetchTurns(j1, i, answers, 0, j.c.sqs[i].arbBurst);
    SetTimerKeeps(t.c, i, true);
    SetTimerSame(t.c, i, true);
    SameRingsMatch(t, SetTimer(t.c, i, true));
  }

  lemma TimerCleared(j: Joint, k: nat)
    requires JointInv(j) && k in j.c.cqs
    ensures var t := j.(c := ClearCqTimer(j.c, k)); Structured(t.c) && Matched(t)
  {
    hide Good, Structured, AwakeBut, Matched, SameRings;
    ClearCqTimerKeeps(j.c, k);
    GoodStructured(ClearCqTimer(j.c, k));
    ClearTimerSame(j.c, k);
    SameRingsMatch(j, ClearCqTimer(j.c, k));
  }

  /** A completion queue's timer fires. */
  function PostBurst(j: Joint, k: nat): Joint
    requires JointInv(j) && k in j.c.cqs
  {
    TimerCleared(j, k);
    PostTurns(j.(c := ClearCqTimer(j.c, k)), k)
  }

  lemma PostBurstKeeps(j: Joint, k: nat)
    requires JointInv(j) && k in j.c.cqs
    ensures JointInv(PostBurst(j, k))
  {
    hide Inv, Structured, Matched, PostTurns, PostAll;
    TimerCleared(j, k);
    CqTimerStep(j.c, k);
    PostTurnsKeeps(j.(c := ClearCqTimer(j.c, k)), k);
  }

  /** The I/O of the `n`-th outstanding request ends. */
  function IoEnd(j: Joint, i: nat, n: nat, ok: bool): Joint
    requires Inv(j.c) && i in j.c.sqs && n < |j.c.sqs[i].outReqList|
  {
    HeldQueue(j.c, i);
    j.(c := Complete(j.c, i, n, if ok then SUCCESS else INTERNAL_DEV_ERROR, IoEnded(ok)))
  }

  lemma IoEndKeeps(j: Joint, i: nat, n: nat, ok: bool)
    requires JointInv(j) && i in j.c.sqs && n < |j.c.sqs[i].outReqList|
    ensures JointInv(IoEnd(j, i, n, ok))
  {
    hide Inv, Matched, Complete, SameRings;
    var status := if ok then SUCCESS else INTERNAL_DEV_ERROR;
    IoDoneStep(j.c, i, n, status, IoEnded(ok));
    CompleteSame(j.c, i, n, status, IoEnded(ok));
    SameRingsMatch(j, Complete(j.c, i, n, status, IoEnded(ok)));
  }

  // ---------------------------------------------------------------------------
  // Runs
  // ---------------------------------------------------------------------------

  datatype Event =
    | Submit(i: nat, cmd: Rings.Cmd)                               // host writes a command
    | Consume(k: nat)                                              // host polls a completion queue
    | TailBell(i: nat)                                             // host writes a submission doorbell
    | HeadBell(k: nat)                                             // host writes a completion doorbell
    | SqTimer(i: nat, answers: nat -> Answer)                      // a submission queue's timer fires
    | CqTimer(k: nat)                                              // a completion queue's timer fires
    | IoDone(i: nat, n: nat, ok: bool)                             // the I/O of an outstanding request ends
    | NewCq(k: nat, ring: seq<Rings.Cqe>)                          // a completion queue is created
    | NewSq(i: nat, k: nat, slots: seq<Rings.Cmd>, burst: nat)     // a submission queue is created

  /** Ring memory that the host has cleared. */
  predicate Cleared(memory: seq<Rings.Cqe>) {
    forall n :: 0 <= n < |memory| ==> !memory[n].phase
  }

  function Step(j: Joint, e: Event): Joint
    requires JointInv(j)
  {
    MatchedShaped(j);
    match e
    case Submit(i, cmd) => j.(s := Rings.Step(j.s, Rings.Submit(i, cmd)))
    case Consume(k) => j.(s := Rings.Step(j.s, Rings.Consume(k)))
    case TailBell(i) => if i in j.s.sqs then TailDoorbell(j, i) else j
    case HeadBell(k) => if k in j.s.cqs then HeadDoorbell(j, k) else j
    case SqTimer(i, answers) => if i in j.c.sqs && j.c.sqs[i].timer then FetchBurst(j, i, answers) else j
    case CqTimer(k) => if k in j.c.cqs && j.c.cqs[k].timer then PostBurst(j, k) else j
    case IoDone(i, n, ok) => if i in j.c.sqs && n < |j.c.sqs[i].outReqList| then IoEnd(j, i, n, ok) else j
    case NewCq(k, ring) =>
      if k !in j.c.cqs && 2 <= |ring| && Addressable(j.c, k, |ring|) && Cleared(ring) then OpenCq(j, k, ring) else j
    case NewSq(i, k, slots, burst) =>
      if i !in j.c.sqs && k in j.c.cqs && 2 <= |slots| && Addressable(j.c, i, |slots|)
        then OpenSq(j, i, k, slots, burst) else j
  }

  lemma StepKeeps(j: Joint, e: Event)
    requires JointInv(j)
    ensures JointInv(Step(j, e))
  {
    hide Inv, Matched, Rings.Shaped, Rings.Step, FetchBurst, PostBurst, IoEnd, OpenCq, OpenSq, TailDoorbell,
         HeadDoorbell;
    MatchedShaped(j);
    match e
    case Submit(i, cmd) => HostKeeps(j, Rings.Submit(i, cmd));
    case Consume(k) => HostKeeps(j, Rings.Consume(k));
    case TailBell(i) => if i in j.s.sqs { TailDoorbellKeeps(j, i); }
    case HeadBell(k) => if k in j.s.cqs { HeadDoorbellKeeps(j, k); }
    case SqTimer(i, answers) => if i in j.c.sqs { FetchBurstKeeps(j, i, answers); }
    case CqTimer(k) => if k in j.c.cqs { PostBurstKeeps(j, k); }
    case IoDone(i, n, ok) => if i in j.c.sqs && n < |j.c.sqs[i].outReqList| { IoEndKeeps(j, i, n, ok); }
    case NewCq(k, ring) =>
      if k !in j.c.cqs && 2 <= |ring| && Addressable(j.c, k, |ring|) && Cleared(ring) { OpenCqKeeps(j, k, ring); }
    case NewSq(i, k, slots, burst) =>
      if i !in j.c.sqs && k in j.c.cqs && 2 <= |slots| && Addressable(j.c, i, |slots|) {
        OpenSqKeeps(j, i, k, slots, burst);
      }
  }

  function Run(j: Joint, es: seq<Event>): Joint
    requires JointInv(j)
    decreases |es|
  {
    if es == [] then j
    else
      StepKeeps(j, es[0]);
      Run(Step(j, es[0]), es[1..])
  }

  lemma {:induction false} RunKeeps(j: Joint, es: seq<Event>)
    requires JointInv(j)
    ensures JointInv(Run(j, es))
    decreases |es|
  {
    if es != [] {
      StepKeeps(j, es[0]);
      RunKeeps(Step(j, es[0]), es[1..]);
    }
  }

  /** Before any queue exists. */
  function Nothing(p: Params): Joint { Joint(Disabled(p), Rings.System(map[], map[])) }

  lemma NothingInv(p: Params)
    ensures JointInv(Nothing(p))
  {
  }

  // ---------------------------------------------------------------------------
  // Every step of the controller is one of its own
  // ---------------------------------------------------------------------------

  /** What the controller of `NvmeController` sees of an event between existing queues. */
  function Seen(j: Joint, e: Event): (r: seq<NvmeController.Event>)
    requires Rings.Shaped(j.s)
  {
    match e
    case Submit(_, _) => []
    case Consume(_) => []
    case TailBell(i) =>
      if i in j.s.sqs then [DoorbellWrite(0x1000 + (2 * i) * j.c.params.doorbell, j.s.sqs[i].hostTail)] else []
    case HeadBell(k) =>
      if k in j.s.cqs then [DoorbellWrite(0x1000 + (2 * k + 1) * j.c.params.doorbell, j.s.cqs[k].hostHead)] else []
    case SqTimer(i, answers) =>
      if i in j.s.sqs then [NvmeController.SqTimer(i, FromMemory(j.s.sqs[i], answers))] else []
    case CqTimer(k) => [NvmeController.CqTimer(k)]
    case IoDone(i, n, ok) => [NvmeController.IoDone(i, n, ok)]
    case NewCq(_, _) => []
    case NewSq(_, _, _, _) => []
  }

  lemma BurstIsProcess(j: Joint, i: nat, answers: nat -> Answer)
    requires JointInv(j) && Rings.Shaped(j.s) && i in j.c.sqs
    ensures i in j.s.sqs && FetchBurst(j, i, answers).c == SqProcess(j.c, i, FromMemory(j.s.sqs[i], answers))
  {
    hide Good, CqAwake, Matched, FetchTurns, FetchLoop;
    KeysMatch(j);
    TimerFired(j, i);
    var r := j.s.sqs[i];
    assert Rings.SqShaped(r);
    var j1 := j.(c := SetTimer(j.c, i, false));
    FetchTurnsIsLoop(j1, i, answers, 0, j.c.sqs[i].arbBurst, r);
  }

  /** Over existing queues, with doorbells that are understood, the joint step moves the
      controller by steps of its own. */
  lemma ControllerStep(j: Joint, e: Event)
    requires JointInv(j) && Rings.Shaped(j.s) && 0x1000 % j.c.params.doorbell == 0 && !e.NewCq? && !e.NewSq?
    ensures Step(j, e).c == NvmeController.Run(j.c, Seen(j, e))
  {
    hide Inv, Matched, Rings.Shaped, Rings.Step, FetchBurst, SqProcess, PostTurns, PostAll, RingTail, RingHead, Decode;
    KeysMatch(j);
    match e
    case Submit(i, cmd) =>
    case Consume(k) =>
    case TailBell(i) => DoorbellsDecode(i, j.c.params.doorbell);
    case HeadBell(k) => DoorbellsDecode(k, j.c.params.doorbell);
    case SqTimer(i, answers) => if i in j.c.sqs { BurstIsProcess(j, i, answers); }
    case CqTimer(k) => if k in j.c.cqs {
      TimerCleared(j, k);
      PostTurnsKeeps(j.(c := ClearCqTimer(j.c, k)), k);
    }
    case IoDone(i, n, ok) =>
  }

  // ---------------------------------------------------------------------------
  // Every command is answered to the host exactly once
  // ---------------------------------------------------------------------------

  /** The completions of queue `i` that the host has taken. */
  function Taken(j: Joint, i: nat): seq<Rings.Cqe>
    requires i in j.c.sqs && j.c.sqs[i].cqid in j.s.cqs
  {
    EntriesOf(j.s.cqs[j.c.sqs[i].cqid].consumed, i)
  }

  /** Each completion taken is the answer to a command of its own, with that command's
      identifier and the status of what became of it; no command is answered twice. */
  ghost predicate TakenOnce(j: Joint, i: nat)
    requires i in j.c.sqs && j.c.sqs[i].cqid in j.s.cqs && i in j.s.sqs
  {
    var taken, answers, cmds := Taken(j, i), j.c.sqs[i].answered, j.s.sqs[i].submitted;
    && |taken| <= |answers|
    && (forall n :: 0 <= n < |taken| ==> Answers(taken[n], answers[n], cmds, j.c.sqs[i].outcomes))
    && (forall m, n :: 0 <= m < n < |taken| ==> answers[m].serial != answers[n].serial)
  }

  predicate Answers(e: Rings.Cqe, r: Request, cmds: seq<Rings.Cmd>, outcomes: map<nat, Outcome>) {
    && r.serial < |cmds| && e.cid == r.cid == cmds[r.serial].cid
    && r.serial in outcomes && e.status == r.status == StatusOf(outcomes[r.serial])
  }

  /** Every command submitted has had its completion taken. */
  ghost predicate AllTaken(j: Joint, i: nat)
    requires i in j.c.sqs && j.c.sqs[i].cqid in j.s.cqs && i in j.s.sqs
  {
    && |Taken(j, i)| == |j.c.sqs[i].answered| == |j.s.sqs[i].submitted|
    && forall k :: 0 <= k < |j.s.sqs[i].submitted| ==> HasAnswer(j.c.sqs[i], k)
  }

  /** Nothing moves any more: no timer runs, no I/O is outstanding, the host has rung for
      everything it wrote or took, and finds nothing new. */
  ghost predicate Still(j: Joint)
    requires Rings.Shaped(j.s)
  {
    && (forall i :: i in j.c.sqs ==> !j.c.sqs[i].timer && j.c.sqs[i].outReqList == [])
    && (forall k :: k in j.c.cqs ==> !j.c.cqs[k].timer)
    && (forall i :: i in j.s.sqs ==> j.s.sqs[i].rung == |j.s.sqs[i].submitted|)
    && (forall k :: k in j.s.cqs ==> j.s.cqs[k].rung == |j.s.cqs[k].consumed| && !Rings.EntryReady(j.s.cqs[k]))
  }

  lemma {:induction false} EntriesPrefix(l: seq<Rings.Cqe>, n: nat, i: nat)
    requires n <= |l|
    ensures EntriesOf(l[..n], i) <= EntriesOf(l, i)
  {
    if n == |l| {
      assert l[..n] == l;
    } else {
      EntriesPrefix(l[..|l| - 1], n, i);
      assert l[..|l| - 1][..n] == l[..n];
    }
  }

  lemma {:induction false} DistinctSerials(l: seq<Request>, m: nat, n: nat)
    requires m < n < |l| && multiset(Serials(l))[l[m].serial] <= 1
    ensures l[m].serial != l[n].serial
  {
    var s := Serials(l);
    assert s == s[..n] + s[n..];
    assert s[..n][m] == l[m].serial && s[n..][0] == l[n].serial;
  }

  /** Answers differ in the command they answer. */
  lemma AnswersDiffer(c: Ctrl, i: nat, m: nat, n: nat)
    requires Inv(c) && i in c.sqs && m < n < |c.sqs[i].answered|
    ensures c.sqs[i].answered[m].serial < |c.sqs[i].fetched|
    ensures c.sqs[i].answered[m].serial != c.sqs[i].answered[n].serial
  {
    HeldQueue(c, i);
    var q := c.sqs[i];
    assert Carry(q.answered, q.fetched);
    hide Good, AwakeBut;
    CommandAnsweredOnce(c, i, q.answered[m].serial);
    DistinctSerials(q.answered, m, n);
  }

  /** What the two sides know of submission queue `i` and its completion queue. */
  lemma QueuesOf(j: Joint, i: nat)
    requires JointInv(j) && i in j.c.sqs
    ensures
      var q := j.c.sqs[i];
      && q.cqid in j.c.cqs && q.cqid in j.s.cqs && i in j.s.sqs
      && SqJoined(q, j.s.sqs[i]) && Rings.SqInv(j.s.sqs[i]) && SqAwake(q)
      && CqJoined(j.c.cqs[q.cqid], j.s.cqs[q.cqid]) && Rings.CqInv(j.s.cqs[q.cqid]) && CqAwake(j.c.cqs[q.cqid])
      && AnswersPosted(j.c, i)
  {
    hide SqJoined, CqJoined, Rings.SqInv, Rings.CqInv, SqAwake, CqAwake, Good;
    assert AnswersPosted(j.c, i);
  }

  lemma TakenPrefix(j: Joint, i: nat)
    requires JointInv(j) && i in j.c.sqs
    ensures j.c.sqs[i].cqid in j.s.cqs && j.c.sqs[i].cqid in j.c.cqs
    ensures
      var posted, answers := EntriesOf(j.c.cqs[j.c.sqs[i].cqid].posted, i), j.c.sqs[i].answered;
      && Taken(j, i) <= posted && |posted| == |answers|
      && forall n :: 0 <= n < |posted| ==> posted[n].cid == answers[n].cid && posted[n].status == answers[n].status
  {
    hide Inv, Matched, EntriesOf;
    QueuesOf(j, i);
    var cr := j.s.cqs[j.c.sqs[i].cqid];
    EntriesPrefix(cr.posted, |cr.consumed|, i);
    var posted, answers := EntriesOf(cr.posted, i), j.c.sqs[i].answered;
    forall n | 0 <= n < |posted| ensures posted[n].cid == answers[n].cid && posted[n].status == answers[n].status {
      assert Reported(posted)[n] == Given(answers)[n];
    }
  }

  lemma AnswersCarry(j: Joint, i: nat, n: nat)
    requires JointInv(j) && i in j.c.sqs && n < |j.c.sqs[i].answered|
    ensures i in j.s.sqs
    ensures
      var r, cmds := j.c.sqs[i].answered[n], j.s.sqs[i].submitted;
      r.serial < |cmds| && r.cid == cmds[r.serial].cid
  {
    hide Inv, Matched, AnswersPosted;
    QueuesOf(j, i);
    assert Carry(j.c.sqs[i].answered, j.c.sqs[i].fetched) by { AllCarry(j.c, i); }
    assert j.s.sqs[i].fetched <= j.s.sqs[i].submitted;
  }

  lemma AllCarry(c: Ctrl, i: nat)
    requires Inv(c) && i in c.sqs
    ensures Carry(c.sqs[i].answered, c.sqs[i].fetched)
  {
    HeldQueue(c, i);
  }

  lemma InvTakenOnce(j: Joint, i: nat)
    requires JointInv(j) && i in j.c.sqs
    ensures j.c.sqs[i].cqid in j.s.cqs && i in j.s.sqs && TakenOnce(j, i)
  {
    hide Inv, Matched, Taken, EntriesOf;
    TakenPrefix(j, i);
    QueuesOf(j, i);
    AnswersTell(j.c, i);
    var taken, answers := Taken(j, i), j.c.sqs[i].answered;
    forall n | 0 <= n < |taken| ensures Answers(taken[n], answers[n], j.s.sqs[i].submitted, j.c.sqs[i].outcomes) {
      AnswersCarry(j, i, n);
    }
    forall m, n | 0 <= m < n < |taken| ensures answers[m].serial != answers[n].serial {
      AnswersDiffer(j.c, i, m, n);
    }
  }

  /** No completion waits, and the host has taken all that were posted. */
  lemma StillDrained(j: Joint, i: nat)
    requires JointInv(j) && Rings.Shaped(j.s) && Still(j) && i in j.c.sqs
    ensures
      var q := j.c.sqs[i];
      && q.cqid in j.c.cqs && q.cqid in j.s.cqs && i in j.s.sqs && j.c.cqs[q.cqid].reqList == []
      && j.s.cqs[q.cqid].consumed == j.c.cqs[q.cqid].posted && |q.fetched| == |j.s.sqs[i].submitted|
  {
    hide Inv, Matched, Rings.TagOf, Wrap, Rings.SlotsHold;
    QueuesOf(j, i);
    var cq, cr := j.c.cqs[j.c.sqs[i].cqid], j.s.cqs[j.c.sqs[i].cqid];
    Rings.SqEmptyExact(j.s.sqs[i]);
    Rings.PollIsExact(cr);
    Rings.CqFullExact(cr);
    assert cr.posted == cr.posted[..|cr.posted|];
  }

  /** A state in which nothing moves has nothing left to do. */
  lemma StillAllTaken(j: Joint, i: nat)
    requires JointInv(j) && Rings.Shaped(j.s) && Still(j) && i in j.c.sqs
    ensures j.c.sqs[i].cqid in j.s.cqs && i in j.s.sqs && AllTaken(j, i)
  {
    hide Inv, Matched, EntriesOf;
    StillDrained(j, i);
    TakenPrefix(j, i);
    DrainedMeansAnswered(j.c, i);
  }

  /** Over every run: the host takes at most one completion for a command, with the command's
      own identifier and the status of what became of it; and when nothing moves any more it has taken one for
      every command it submitted. */
  lemma EveryCommandTakenOnce(p: Params, es: seq<Event>, i: nat)
    ensures JointInv(Nothing(p))
    ensures
      var j := Run(Nothing(p), es);
      && Rings.Shaped(j.s)
      && (i in j.c.sqs ==>
            && j.c.sqs[i].cqid in j.s.cqs && i in j.s.sqs && TakenOnce(j, i)
            && (Still(j) ==> AllTaken(j, i)))
  {
    hide Inv, Matched, Run, TakenOnce, AllTaken, Still;
    NothingInv(p);
    RunKeeps(Nothing(p), es);
    var j := Run(Nothing(p), es);
    MatchedShaped(j);
    if i in j.c.sqs {
      InvTakenOnce(j, i);
      if Still(j) { StillAllTaken(j, i); }
    }
  }
}
