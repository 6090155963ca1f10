/** Submission and completion rings shared by a host and the controller, with doorbells and
    phase tags (NVM Express 1.1, sections 4.1 and 4.6).

    The controller side is the code's; the host polls by phase tag, refills only slots that
    a completion has reported free, and may ring its doorbells as late as it likes.  Beside
    the ring registers each queue carries its history: logs and unbounded counts. */
module NvmeRings {
  import opened Modular

  datatype Cmd = Cmd(cid: nat, body: nat)

  datatype Cqe = Cqe(cid: nat, sqid: nat, sqHead: nat, status: nat, phase: bool)

  datatype SqRing = SqRing(
    cqid: nat, size: nat,
    head: nat, tail: nat,                  // controller registers
    memory: seq<Cmd>,
    hostTail: nat, hostHead: nat,          // the host's own indices
    submitted: seq<Cmd>, fetched: seq<Cmd>,
    rung: nat,                             // submissions covered by the doorbell
    known: nat)                            // fetches the host has been told of

  datatype CqRing = CqRing(
    size: nat,
    head: nat, tail: nat, phase: bool,     // controller registers
    memory: seq<Cqe>,
    hostHead: nat, hostPhase: bool,
    posted: seq<Cqe>, consumed: seq<Cqe>,
    rung: nat,                             // entries released by the doorbell
    heads: seq<nat>)                       // fetches made by the queue of each posted entry

  function Next(i: nat, size: nat): nat
    requires size >= 1
  {
    Wrap(i + 1, size)
  }

  predicate CqFull(q: CqRing)
    requires q.size >= 1
  {
    Next(q.tail, q.size) == q.head
  }

  predicate SqEmpty(q: SqRing) { q.head == q.tail }

  /** The controller writes one completion at its tail. */
  function PostEntry(q: CqRing, cid: nat, sqid: nat, sqHead: nat, status: nat, fetches: nat): CqRing
    requires q.tail < |q.memory|
  {
    var e := Cqe(cid, sqid, sqHead, status, q.phase);
    var wraps := q.tail + 1 >= q.size;
    q.(memory := q.memory[q.tail := e],
       tail := if wraps then 0 else q.tail + 1,
       phase := if wraps then !q.phase else q.phase,
       posted := q.posted + [e],
       heads := q.heads + [fetches])
  }

  /** The controller reads the command at its head. */
  function FetchEntry(q: SqRing): SqRing
    requires q.head < |q.memory| && q.size >= 1
  {
    q.(head := Next(q.head, q.size), fetched := q.fetched + [q.memory[q.head]])
  }

  /** The host finds a completion in the slot it polls when the tag has the awaited value. */
  predicate EntryReady(q: CqRing)
    requires q.hostHead < |q.memory|
  {
    q.memory[q.hostHead].phase == q.hostPhase
  }

  function ConsumeEntry(q: CqRing): CqRing
    requires q.hostHead < |q.memory|
  {
    var wraps := q.hostHead + 1 >= q.size;
    q.(consumed := q.consumed + [q.memory[q.hostHead]],
       hostHead := if wraps then 0 else q.hostHead + 1,
       hostPhase := if wraps then !q.hostPhase else q.hostPhase)
  }

  predicate HostSeesRoom(q: SqRing)
    requires q.size >= 1
  {
    Next(q.hostTail, q.size) != q.hostHead
  }

  function SubmitEntry(q: SqRing, c: Cmd): SqRing
    requires q.hostTail < |q.memory| && q.size >= 1
  {
    q.(memory := q.memory[q.hostTail := c], hostTail := Next(q.hostTail, q.size), submitted := q.submitted + [c])
  }

  // ---------------------------------------------------------------------------
  // One ring at a time
  // ---------------------------------------------------------------------------

  predicate Even(n: nat) {
    if n == 0 then true else !Even(n - 1)
  }

  /** The tag written on the `k`-th entry: it changes on every pass over the ring. */
  predicate TagOf(k: nat, size: nat)
    requires size >= 1
  {
    Even(Turns(k, size))
  }

  lemma {:induction false} NextIndex(k: nat, size: nat)
    requires size >= 2
    ensures
      var i := Wrap(k, size);
      && Wrap(k + 1, size) == (if i + 1 >= size then 0 else i + 1) == Next(i, size)
      && TagOf(k + 1, size) == (if i + 1 >= size then !TagOf(k, size) else TagOf(k, size))
    decreases k
  {
    if k >= size {
      NextIndex(k - size, size);
      assert Turns(k, size) == 1 + Turns(k - size, size) && Turns(k + 1, size) == 1 + Turns(k + 1 - size, size);
    } else if k + 1 == size {
      assert Turns(k + 1, size) == 1 + Turns(0, size) && Even(1) == !Even(0);
    }
  }

  ghost predicate CqInv(q: CqRing) {
    var p, c := |q.posted|, |q.consumed|;
    && q.size >= 2 && |q.memory| == q.size && |q.heads| == p
    && q.rung <= c <= p && p < q.rung + q.size
    && q.consumed == q.posted[..c]
    && q.head == Wrap(q.rung, q.size)
    && q.tail == Wrap(p, q.size) && q.phase == TagOf(p, q.size)
    && q.hostHead == Wrap(c, q.size) && q.hostPhase == TagOf(c, q.size)
    && SlotsHold(q.memory, q.posted)
  }

  /** Every slot holds the last entry written to it, or still has its initial zero tag. */
  ghost predicate SlotsHold(memory: seq<Cqe>, posted: seq<Cqe>) {
    && |memory| >= 1
    && (forall k :: 0 <= k < |posted| && |posted| <= k + |memory| ==> Slot(memory, k) == posted[k])
    && (forall k :: 0 <= k < |posted| ==> posted[k].phase == TagOf(k, |memory|))
    && (forall k :: |posted| <= k < |memory| ==> !memory[k].phase)
  }

  function Slot<T>(memory: seq<T>, k: nat): T
    requires |memory| >= 1
  {
    memory[Wrap(k, |memory|)]
  }

  /** The slot the host polls next, with the tag of the pass before. */
  lemma StaleTag(memory: seq<Cqe>, posted: seq<Cqe>)
    requires SlotsHold(memory, posted)
    ensures Slot(memory, |posted|).phase != TagOf(|posted|, |memory|)
  {
    var p, n := |posted|, |memory|;
    if p >= n {
      assert Slot(memory, p - n) == posted[p - n];
      assert Wrap(p, n) == Wrap(p - n, n) && Turns(p, n) == 1 + Turns(p - n, n);
    }
  }

  /** The host takes an entry exactly when one is waiting, and takes the right one. */
  lemma PollIsExact(q: CqRing)
    requires CqInv(q)
    ensures EntryReady(q) <==> |q.consumed| < |q.posted|
    ensures EntryReady(q) ==> q.memory[q.hostHead] == q.posted[|q.consumed|]
  {
    hide TagOf;
    var c := |q.consumed|;
    if c < |q.posted| {
      assert Slot(q.memory, c) == q.posted[c];
    } else {
      StaleTag(q.memory, q.posted);
    }
  }

  lemma ConsumeKeeps(q: CqRing)
    requires CqInv(q) && EntryReady(q)
    ensures CqInv(ConsumeEntry(q))
  {
    hide TagOf, SlotsHold;
    PollIsExact(q);
    NextIndex(|q.consumed|, q.size);
    var c := |q.consumed|;
    assert q.posted[..c + 1] == q.posted[..c] + [q.posted[c]];
  }

  lemma CqFullExact(q: CqRing)
    requires CqInv(q)
    ensures CqFull(q) <==> |q.posted| + 1 == q.rung + q.size
  {
    hide TagOf, SlotsHold;
    NextIndex(|q.posted|, q.size);
    WrapAdvance(q.rung, |q.posted| + 1 - q.rung, q.size);
  }

  lemma PostSlots(memory: seq<Cqe>, posted: seq<Cqe>, e: Cqe)
    requires SlotsHold(memory, posted) && e.phase == TagOf(|posted|, |memory|)
    ensures SlotsHold(memory[Wrap(|posted|, |memory|) := e], posted + [e])
  {
    hide TagOf;
    var p, n := |posted|, |memory|;
    var m := memory[Wrap(p, n) := e];
    forall k | 0 <= k <= p && p + 1 <= k + n
      ensures Slot(m, k) == (posted + [e])[k]
    {
      if k < p {
        WrapDistinct(k, p, n);
        assert Slot(memory, k) == posted[k];
      }
    }
    forall k | p + 1 <= k < n
      ensures !m[k].phase
    {
      assert Wrap(p, n) == p;
    }
  }

  /** A completion is only written over an entry the host has released. */
  lemma PostKeeps(q: CqRing, cid: nat, sqid: nat, sqHead: nat, status: nat, fetches: nat)
    requires CqInv(q) && !CqFull(q)
    ensures CqInv(PostEntry(q, cid, sqid, sqHead, status, fetches))
    ensures |q.posted| < q.rung + q.size - 1
  {
    hide TagOf, SlotsHold, Wrap;
    CqFullExact(q);
    NextIndex(|q.posted|, q.size);
    PostSlots(q.memory, q.posted, Cqe(cid, sqid, sqHead, status, q.phase));
    var t := PostEntry(q, cid, sqid, sqHead, status, fetches);
    assert t.posted[..|q.consumed|] == q.posted[..|q.consumed|];
  }

  ghost predicate SqInv(q: SqRing) {
    var s, f := |q.submitted|, |q.fetched|;
    && q.size >= 2 && |q.memory| == q.size
    && q.known <= f <= q.rung <= s && s < q.known + q.size
    && q.fetched == q.submitted[..f]
    && q.head == Wrap(f, q.size) && q.tail == Wrap(q.rung, q.size)
    && q.hostTail == Wrap(s, q.size) && q.hostHead == Wrap(q.known, q.size)
    && (forall k :: q.known <= k < s ==> Slot(q.memory, k) == q.submitted[k])
  }

  /** The doorbell value tells the controller exactly whether commands wait. */
  lemma SqEmptyExact(q: SqRing)
    requires SqInv(q)
    ensures SqEmpty(q) <==> |q.fetched| == q.rung
  {
    if |q.fetched| < q.rung {
      WrapDistinct(|q.fetched|, q.rung, q.size);
    }
  }

  lemma FetchKeeps(q: SqRing)
    requires SqInv(q) && !SqEmpty(q)
    ensures SqInv(FetchEntry(q))
    ensures q.memory[q.head] == q.submitted[|q.fetched|]
  {
    hide Next;
    SqEmptyExact(q);
    var f := |q.fetched|;
    NextIndex(f, q.size);
    assert Slot(q.memory, f) == q.submitted[f];
    assert q.submitted[..f + 1] == q.submitted[..f] + [q.submitted[f]];
  }

  /** A command is only written over one the controller has fetched. */
  lemma SubmitKeeps(q: SqRing, c: Cmd)
    requires SqInv(q) && HostSeesRoom(q)
    ensures SqInv(SubmitEntry(q, c))
    ensures |q.submitted| < q.known + q.size - 1
  {
    var s := |q.submitted|;
    NextIndex(s, q.size);
    WrapAdvance(q.known, s + 1 - q.known, q.size);
    var t := SubmitEntry(q, c);
    forall k | t.known <= k < s + 1
      ensures Slot(t.memory, k) == t.submitted[k]
    {
      if k < s {
        WrapDistinct(k, s, q.size);
        assert Slot(q.memory, k) == q.submitted[k];
      }
    }
    assert t.submitted[..|q.fetched|] == q.submitted[..|q.fetched|];
  }

  // ---------------------------------------------------------------------------
  // Host and controller together
  // ---------------------------------------------------------------------------

  datatype System = System(sqs: map<nat, SqRing>, cqs: map<nat, CqRing>)

  datatype Event =
    | Submit(sqid: nat, cmd: Cmd)              // host writes a command
    | RingTail(sqid: nat)                      // host writes a submission doorbell
    | Fetch(sqid: nat)                         // controller reads a command
    | Post(sqid: nat, cid: nat, status: nat)   // controller writes a completion for that queue
    | Consume(cqid: nat)                       // host polls a completion queue
    | RingHead(cqid: nat)                      // host writes a completion doorbell

  /** The host takes over the head pointer that a completion reports for its queue. */
  function Learn(sqs: map<nat, SqRing>, e: Cqe, fetches: nat): map<nat, SqRing> {
    if e.sqid in sqs then sqs[e.sqid := sqs[e.sqid].(hostHead := e.sqHead, known := fetches)] else sqs
  }

  /** The count behind the head pointer of the entry that is polled next. */
  function HeadReported(q: CqRing): nat {
    if |q.consumed| < |q.heads| then q.heads[|q.consumed|] else 0
  }

  /** An event whose guard fails changes nothing. */
  function Step(s: System, e: Event): System
    requires Shaped(s)
  {
    match e
    case Submit(i, c) =>
      if i in s.sqs && HostSeesRoom(s.sqs[i]) then s.(sqs := s.sqs[i := SubmitEntry(s.sqs[i], c)]) else s
    case RingTail(i) =>
      if i in s.sqs then
        var q := s.sqs[i];
        s.(sqs := s.sqs[i := q.(tail := q.hostTail, rung := |q.submitted|)])
      else s
    case Fetch(i) =>
      if i in s.sqs && !SqEmpty(s.sqs[i]) then s.(sqs := s.sqs[i := FetchEntry(s.sqs[i])]) else s
    case Post(i, cid, status) =>
      if i in s.sqs && s.sqs[i].cqid in s.cqs && !CqFull(s.cqs[s.sqs[i].cqid]) then
        var q := s.sqs[i];
        s.(cqs := s.cqs[q.cqid := PostEntry(s.cqs[q.cqid], cid, i, q.head, status, |q.fetched|)])
      else s
    case Consume(j) =>
      if j in s.cqs && EntryReady(s.cqs[j]) then
        var q := s.cqs[j];
        System(Learn(s.sqs, q.memory[q.hostHead], HeadReported(q)), s.cqs[j := ConsumeEntry(q)])
      else s
    case RingHead(j) =>
      if j in s.cqs then
        var q := s.cqs[j];
        s.(cqs := s.cqs[j := q.(head := q.hostHead, rung := |q.consumed|)])
      else s
  }

  /** Indices inside the rings. */
  predicate Shaped(s: System) {
    && (forall i :: i in s.sqs ==> SqShaped(s.sqs[i]))
    && (forall j :: j in s.cqs ==> CqShaped(s.cqs[j]))
  }

  predicate SqShaped(q: SqRing) {
    q.size >= 2 && |q.memory| == q.size && q.head < q.size && q.hostTail < q.size
  }

  predicate CqShaped(q: CqRing) {
    q.size >= 2 && |q.memory| == q.size && q.tail < q.size && q.hostHead < q.size
  }

  ghost predicate Inv(s: System) {
    && (forall i :: i in s.sqs ==> SqInv(s.sqs[i]))
    && (forall j :: j in s.cqs ==> CqInv(s.cqs[j]))
    && (forall j :: j in s.cqs ==> HeadsRight(s, j))
  }

  /** What the entries of completion queue `j` say about submission queues: each was written
      when its queue had made a known number of fetches, later entries never report fewer,
      and the host knows no more than the entries it has not seen yet. */
  ghost predicate HeadsRight(s: System, j: nat)
    requires j in s.cqs && CqInv(s.cqs[j])
  {
    var q := s.cqs[j];
    && (forall k :: 0 <= k < |q.posted| ==> HeadRight(s.sqs, q.posted[k], q.heads[k], j, k >= |q.consumed|))
    && (forall k, l :: 0 <= k < l < |q.posted| && q.posted[k].sqid == q.posted[l].sqid ==> q.heads[k] <= q.heads[l])
  }

  predicate HeadRight(sqs: map<nat, SqRing>, e: Cqe, fetches: nat, j: nat, unseen: bool) {
    && e.sqid in sqs && sqs[e.sqid].cqid == j && sqs[e.sqid].size >= 2
    && e.sqHead == Wrap(fetches, sqs[e.sqid].size)
    && fetches <= |sqs[e.sqid].fetched|
    && (unseen ==> sqs[e.sqid].known <= fetches)
  }

  lemma InvShaped(s: System)
    requires Inv(s)
    ensures Shaped(s)
  {
    forall i | i in s.sqs ensures SqShaped(s.sqs[i]) { assert SqInv(s.sqs[i]); }
    forall j | j in s.cqs ensures CqShaped(s.cqs[j]) { assert CqInv(s.cqs[j]); }
  }

  /** A submission queue moves on: more fetches, nothing else that completions refer to. */
  lemma SqStepKeeps(s: System, i: nat, q: SqRing)
    requires Inv(s) && i in s.sqs && SqInv(q)
    requires q.cqid == s.sqs[i].cqid && q.size == s.sqs[i].size && q.known == s.sqs[i].known
    requires |s.sqs[i].fetched| <= |q.fetched|
    ensures Inv(s.(sqs := s.sqs[i := q]))
  {
    hide SlotsHold, TagOf, SqInv, Wrap;
    var t := s.(sqs := s.sqs[i := q]);
    forall j | j in t.cqs
      ensures HeadsRight(t, j)
    {
      assert HeadsRight(s, j);
      var c := s.cqs[j];
      forall k | 0 <= k < |c.posted|
        ensures HeadRight(t.sqs, c.posted[k], c.heads[k], j, k >= |c.consumed|)
      {
        assert HeadRight(s.sqs, c.posted[k], c.heads[k], j, k >= |c.consumed|);
      }
    }
  }

  /** Registers of a completion queue move without touching its log of posted entries, or
      its log of consumed ones. */
  lemma CqRegistersKeep(s: System, j: nat, q: CqRing)
    requires Inv(s) && j in s.cqs && CqInv(q)
    requires q.posted == s.cqs[j].posted && q.heads == s.cqs[j].heads && |q.consumed| == |s.cqs[j].consumed|
    ensures Inv(s.(cqs := s.cqs[j := q]))
  {
    hide SlotsHold, TagOf, SqInv, Wrap;
    var t := s.(cqs := s.cqs[j := q]);
    forall l | l in t.cqs
      ensures HeadsRight(t, l)
    {
      assert HeadsRight(s, l);
    }
  }

  lemma PostStepKeeps(s: System, i: nat, cid: nat, status: nat)
    requires Inv(s) && i in s.sqs && s.sqs[i].cqid in s.cqs && Shaped(s) && !CqFull(s.cqs[s.sqs[i].cqid])
    ensures Inv(Step(s, Post(i, cid, status)))
  {
    hide SlotsHold, TagOf, Wrap, CqFull;
    var q, t := s.sqs[i], Step(s, Post(i, cid, status));
    var c, c' := s.cqs[q.cqid], t.cqs[q.cqid];
    assert SqInv(q) && CqInv(c) && HeadsRight(s, q.cqid);
    PostKeeps(c, cid, i, q.head, status, |q.fetched|);
    forall l | l in t.cqs
      ensures HeadsRight(t, l)
    {
      assert HeadsRight(s, l);
      if l == q.cqid {
        assert HeadRight(s.sqs, c'.posted[|c.posted|], c'.heads[|c.posted|], l, true);
        forall k | 0 <= k < |c.posted|
          ensures HeadRight(t.sqs, c'.posted[k], c'.heads[k], l, k >= |c'.consumed|) && c'.heads[k] == c.heads[k]
        {
          assert HeadRight(s.sqs, c.posted[k], c.heads[k], l, k >= |c.consumed|);
        }
      }
    }
  }

  /** Learning the head of the entry being consumed. */
  lemma LearnKeeps(s: System, j: nat)
    requires Inv(s) && Shaped(s) && j in s.cqs && |s.cqs[j].consumed| < |s.cqs[j].posted|
    ensures
      var c := s.cqs[j];
      var n := |c.consumed|;
      var sqs := Learn(s.sqs, c.posted[n], c.heads[n]);
      && (forall i :: i in sqs ==> SqInv(sqs[i]))
      && (forall l, k :: l in s.cqs && 0 <= k < |s.cqs[l].posted| ==>
            HeadRight(sqs, s.cqs[l].posted[k], s.cqs[l].heads[k], l, k >= |s.cqs[l].consumed| && (l == j ==> k > n)))
  {
    hide SlotsHold, TagOf, Wrap;
    var c := s.cqs[j];
    var n := |c.consumed|;
    var e, h := c.posted[n], c.heads[n];
    assert CqInv(c) && HeadsRight(s, j);
    assert HeadRight(s.sqs, e, h, j, true);
    var q := s.sqs[e.sqid];
    assert SqInv(q);
    var sqs := Learn(s.sqs, e, h);
    assert SqInv(sqs[e.sqid]);
    forall l, k | l in s.cqs && 0 <= k < |s.cqs[l].posted|
      ensures HeadRight(sqs, s.cqs[l].posted[k], s.cqs[l].heads[k], l, k >= |s.cqs[l].consumed| && (l == j ==> k > n))
    {
      assert HeadsRight(s, l);
      assert HeadRight(s.sqs, s.cqs[l].posted[k], s.cqs[l].heads[k], l, k >= |s.cqs[l].consumed|);
      if l == j && k > n && c.posted[k].sqid == e.sqid {
        assert h <= c.heads[k];
      }
    }
  }

  lemma ConsumeStepKeeps(s: System, j: nat)
    requires Inv(s) && Shaped(s) && j in s.cqs && EntryReady(s.cqs[j])
    ensures Inv(Step(s, Consume(j)))
  {
    hide SlotsHold, TagOf, Wrap, SqInv, HeadRight;
    var c, t := s.cqs[j], Step(s, Consume(j));
    assert CqInv(c);
    PollIsExact(c);
    ConsumeKeeps(c);
    LearnKeeps(s, j);
    forall l | l in t.cqs
      ensures HeadsRight(t, l)
    {
      assert HeadsRight(s, l);
      forall k | 0 <= k < |t.cqs[l].posted|
        ensures HeadRight(t.sqs, t.cqs[l].posted[k], t.cqs[l].heads[k], l, k >= |t.cqs[l].consumed|)
      {
        assert HeadRight(t.sqs, s.cqs[l].posted[k], s.cqs[l].heads[k], l,
                         k >= |s.cqs[l].consumed| && (l == j ==> k > |c.consumed|));
      }
    }
  }

  lemma StepKeepsInv(s: System, e: Event)
    requires Inv(s) && Shaped(s)
    ensures Inv(Step(s, e))
  {
    hide SlotsHold, TagOf, Wrap, HeadsRight;
    match e
    case Submit(i, c) =>
      if i in s.sqs && HostSeesRoom(s.sqs[i]) {
        SubmitKeeps(s.sqs[i], c);
        SqStepKeeps(s, i, SubmitEntry(s.sqs[i], c));
      }
    case RingTail(i) =>
      if i in s.sqs {
        var q := s.sqs[i];
        assert SqInv(q);
        SqStepKeeps(s, i, q.(tail := q.hostTail, rung := |q.submitted|));
      }
    case Fetch(i) =>
      if i in s.sqs && !SqEmpty(s.sqs[i]) {
        FetchKeeps(s.sqs[i]);
        SqStepKeeps(s, i, FetchEntry(s.sqs[i]));
      }
    case Post(i, cid, status) =>
      if i in s.sqs && s.sqs[i].cqid in s.cqs && !CqFull(s.cqs[s.sqs[i].cqid]) {
        PostStepKeeps(s, i, cid, status);
      }
    case Consume(j) =>
      if j in s.cqs && EntryReady(s.cqs[j]) {
        ConsumeStepKeeps(s, j);
      }
    case RingHead(j) =>
      if j in s.cqs {
        var q := s.cqs[j];
        assert CqInv(q);
        CqRegistersKeep(s, j, q.(head := q.hostHead, rung := |q.consumed|));
      }
  }

  /** Rings as they are created: indices at zero, completion memory cleared. */
  ghost predicate Initial(s: System) {
    && (forall i :: i in s.sqs ==>
          var q := s.sqs[i];
          && q.size >= 2 && |q.memory| == q.size && q.cqid in s.cqs
          && q.head == q.tail == q.hostTail == q.hostHead == q.rung == q.known == 0 && q.submitted == q.fetched == [])
    && (forall j :: j in s.cqs ==>
          var q := s.cqs[j];
          && q.size >= 2 && |q.memory| == q.size && (forall k :: 0 <= k < q.size ==> !q.memory[k].phase)
          && q.head == q.tail == q.hostHead == q.rung == 0 && q.phase && q.hostPhase
          && q.posted == q.consumed == [] && q.heads == [])
  }

  lemma InitialInv(s: System)
    requires Initial(s)
    ensures Inv(s)
  {
  }

  /** The state after a run, for any order of host and controller steps. */
  ghost function Run(s: System, es: seq<Event>): System
    requires Inv(s)
    decreases |es|
  {
    InvShaped(s);
    if es == [] then s
    else
      StepKeepsInv(s, es[0]);
      Run(Step(s, es[0]), es[1..])
  }

  /** Over every run: the host has consumed a prefix of what was posted, the controller has
      fetched a prefix of what was submitted, unread completions and unfetched commands are
      intact in memory, and polling sees exactly the waiting entries. */
  lemma {:induction false} ClosedLoop(s: System, es: seq<Event>)
    requires Inv(s)
    ensures Inv(Run(s, es))
    ensures forall i :: i in Run(s, es).sqs ==> CommandsIntact(Run(s, es).sqs[i])
    ensures forall j :: j in Run(s, es).cqs ==> CompletionsIntact(Run(s, es).cqs[j])
    decreases |es|
  {
    InvShaped(s);
    if es == [] {
      forall i | i in s.sqs ensures CommandsIntact(s.sqs[i]) { CommandsSafe(s.sqs[i]); }
      forall j | j in s.cqs ensures CompletionsIntact(s.cqs[j]) { CompletionsSafe(s.cqs[j]); }
    } else {
      StepKeepsInv(s, es[0]);
      ClosedLoop(Step(s, es[0]), es[1..]);
    }
  }

  /** The same from rings as they are created, with completion memory cleared. */
  lemma FromCreatedRings(s: System, es: seq<Event>)
    requires Initial(s)
    ensures Inv(s)
    ensures forall i :: i in Run(s, es).sqs ==> CommandsIntact(Run(s, es).sqs[i])
    ensures forall j :: j in Run(s, es).cqs ==> CompletionsIntact(Run(s, es).cqs[j])
  {
    hide Run, CommandsIntact, CompletionsIntact;
    InitialInv(s);
    ClosedLoop(s, es);
  }

  predicate CommandsIntact(q: SqRing) {
    && q.size >= 1 && |q.memory| == q.size
    && q.fetched <= q.submitted
    && (forall k :: |q.fetched| <= k < |q.submitted| ==> Slot(q.memory, k) == q.submitted[k])
    && |q.submitted| - |q.fetched| < q.size
  }

  predicate CompletionsIntact(q: CqRing) {
    && q.size >= 1 && |q.memory| == q.size && q.hostHead < q.size
    && q.consumed <= q.posted
    && (forall k :: |q.consumed| <= k < |q.posted| ==> Slot(q.memory, k) == q.posted[k])
    && (EntryReady(q) <==> |q.consumed| < |q.posted|)
  }

  lemma CommandsSafe(q: SqRing)
    requires SqInv(q)
    ensures CommandsIntact(q)
  {
  }

  lemma CompletionsSafe(q: CqRing)
    requires CqInv(q)
    ensures CompletionsIntact(q)
  {
    PollIsExact(q);
  }
}
