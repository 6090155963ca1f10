/** What the host learns: the completion of a command tells how that command ended, whatever
    happened between. */
module NvmeOutcomes {
  import opened Modular
  import opened NvmeQueues
  import opened NvmeQueueRuns
  import opened NvmeLoop
  import C = NvmeController
  import Rings = NvmeRings

  /** No outcome is forgotten or changed. */
  predicate Kept(c: Ctrl, t: Ctrl) {
    forall i :: i in c.sqs ==> i in t.sqs && Grown(c.sqs[i].outcomes, t.sqs[i].outcomes)
  }

  predicate Grown(m: map<nat, Outcome>, n: map<nat, Outcome>) {
    forall k :: k in m ==> k in n && n[k] == m[k]
  }

  lemma KeptItself(c: Ctrl)
    ensures Kept(c, c)
  {
  }

  lemma KeptTwice(c: Ctrl, t: Ctrl, u: Ctrl)
    requires Kept(c, t) && Kept(t, u)
    ensures Kept(c, u)
  {
    hide Grown;
    forall i | i in c.sqs ensures Grown(c.sqs[i].outcomes, u.sqs[i].outcomes) {
      GrownTwice(c.sqs[i].outcomes, t.sqs[i].outcomes, u.sqs[i].outcomes);
    }
  }

  lemma GrownTwice(m: map<nat, Outcome>, n: map<nat, Outcome>, o: map<nat, Outcome>)
    requires Grown(m, n) && Grown(n, o)
    ensures Grown(m, o)
  {
  }

  // ---------------------------------------------------------------------------
  // Fetching
  // ---------------------------------------------------------------------------

  /** A command answered at once has ended with that status; any other has not ended. */
  function Begun(m: map<nat, Outcome>, serial: nat, a: Answer): map<nat, Outcome> {
    match a
    case Now(status) => m[serial := AtOnce(status)]
    case Later => m
  }

  lemma FetchedOutcome(c: Ctrl, i: nat, cid: nat, a: Answer)
    requires Good(c) && AwakeBut(c, {i}) && i in c.sqs && c.sqs[i].reqList != []
    ensures
      var t := C.FetchOne(c, i, C.Fetched(cid, Other, a));
      i in t.sqs && t.sqs[i].outcomes == Begun(c.sqs[i].outcomes, |c.sqs[i].fetched|, a)
  {
    hide Good, AwakeBut;
    C.StartedKeeps(c, i, cid);
    var c1 := C.Started(c, i, cid);
    C.ExecutedKeeps(c1, i, C.Fetched(cid, Other, a));
    C.AnsweredKeeps(c1, i, a);
  }

  /** The serial of the next command is new. */
  lemma SerialIsNew(c: Ctrl, i: nat)
    requires Good(c) && i in c.sqs
    ensures forall n :: n in c.sqs[i].outcomes ==> n < |c.sqs[i].fetched|
  {
    C.GoodStructured(c);
    HeldQueue(c, i);
  }

  lemma FetchTurnOutcome(j: Joint, i: nat, a: Answer)
    requires Good(j.c) && AwakeBut(j.c, {i}) && Matched(j) && i in j.c.sqs && j.c.sqs[i].reqList != []
    requires !SqEmpty(j.c.sqs[i])
    ensures
      var t := FetchTurn(j, i, a);
      && i in t.c.sqs && Kept(j.c, t.c) && |t.c.sqs[i].fetched| == |j.c.sqs[i].fetched| + 1
      && t.c.sqs[i].outcomes == Begun(j.c.sqs[i].outcomes, |j.c.sqs[i].fetched|, a)
  {
    hide Good, AwakeBut, C.FetchOne, Rings.Inv, Rings.Step, CqsJoined, AllAnswersPosted;
    MatchedShaped(j);
    KeysMatch(j);
    var cid := j.s.sqs[i].memory[j.s.sqs[i].head].cid;
    FetchOther(j.c, i, cid, a);
    FetchedOutcome(j.c, i, cid, a);
    SerialIsNew(j.c, i);
  }

  /** Of the commands fetched from number `first` on, with answers from number `n` on,
      command `x` is told its answer. */
  predicate TellsAnswer(q: SQueue, answers: nat -> Answer, n: nat, first: nat, x: nat) {
    first <= x ==>
      var a := answers(n + x - first);
      a.Now? ==> x in q.outcomes && q.outcomes[x] == AtOnce(a.status)
  }

  lemma {:induction false} FetchTurnsOutcomes(j: Joint, i: nat, answers: nat -> Answer, n: nat, budget: nat)
    requires Good(j.c) && AwakeBut(j.c, {i}) && Matched(j) && i in j.c.sqs
    ensures
      var t, f := FetchTurns(j, i, answers, n, budget), |j.c.sqs[i].fetched|;
      && i in t.c.sqs && Kept(j.c, t.c) && f <= |t.c.sqs[i].fetched|
      && forall x :: f <= x < |t.c.sqs[i].fetched| ==> TellsAnswer(t.c.sqs[i], answers, n, f, x)
    decreases budget
  {
    hide Good, AwakeBut, Matched, FetchTurn, SqEmpty;
    if budget == 0 || SqEmpty(j.c.sqs[i]) || j.c.sqs[i].reqList == [] {
      KeptItself(j.c);
    } else {
      FetchTurnKeeps(j, i, answers(n));
      FetchTurnOutcome(j, i, answers(n));
      var u := FetchTurn(j, i, answers(n));
      FetchTurnsOutcomes(u, i, answers, n + 1, budget - 1);
      var t := FetchTurns(u, i, answers, n + 1, budget - 1);
      KeptTwice(j.c, u.c, t.c);
      var f := |j.c.sqs[i].fetched|;
      assert Grown(u.c.sqs[i].outcomes, t.c.sqs[i].outcomes);
      forall x | f <= x < |t.c.sqs[i].fetched| ensures TellsAnswer(t.c.sqs[i], answers, n, f, x) {
        if x > f {
          assert TellsAnswer(t.c.sqs[i], answers, n + 1, f + 1, x);
        }
      }
    }
  }

  // ---------------------------------------------------------------------------
  // Everything else
  // ---------------------------------------------------------------------------

  /** The same outcomes. */
  predicate SameOutcomes(c: Ctrl, t: Ctrl) {
    t.sqs.Keys == c.sqs.Keys && forall i :: i in c.sqs ==> t.sqs[i].outcomes == c.sqs[i].outcomes
  }

  lemma SameKept(c: Ctrl, t: Ctrl)
    requires SameOutcomes(c, t)
    ensures Kept(c, t)
  {
  }

  lemma TailSame(c: Ctrl, i: nat, value: int)
    ensures SameOutcomes(c, C.RingTail(c, i, value))
  {
  }

  lemma HeadSame(c: Ctrl, k: nat, value: int)
    ensures SameOutcomes(c, C.RingHead(c, k, value))
  {
    hide CqFull;
  }

  lemma TimersSame(c: Ctrl, i: nat, on: bool)
    ensures i in c.sqs ==> SameOutcomes(c, C.SetTimer(c, i, on))
    ensures i in c.cqs ==> SameOutcomes(c, C.ClearCqTimer(c, i))
  {
  }

  lemma {:induction false} PostTurnsSame(j: Joint, k: nat)
    requires Structured(j.c) && Matched(j) && k in j.c.cqs
    ensures SameOutcomes(j.c, PostTurns(j, k).c)
    decreases if k in j.c.cqs then |j.c.cqs[k].reqList| else 0
  {
    hide Structured, Matched, CqFull, PostTurn;
    if !(j.c.cqs[k].reqList == [] || CqFull(j.c.cqs[k])) {
      PostTurnKeeps(j, k);
      PostTurnSame(j, k);
      PostTurnsSame(PostTurn(j, k), k);
    }
  }

  lemma PostTurnSame(j: Joint, k: nat)
    requires Structured(j.c) && Matched(j) && k in j.c.cqs && j.c.cqs[k].reqList != [] && !CqFull(j.c.cqs[k])
    ensures SameOutcomes(j.c, PostTurn(j, k).c)
  {
    hide Structured, Matched, PostOne;
    PostedOne(j.c, k);
  }

  lemma FetchBurstOutcomes(j: Joint, i: nat, answers: nat -> Answer)
    requires JointInv(j) && i in j.c.sqs
    ensures
      var t, f := FetchBurst(j, i, answers), |j.c.sqs[i].fetched|;
      && i in t.c.sqs && Kept(j.c, t.c)
      && forall x :: f <= x < |t.c.sqs[i].fetched| ==> TellsAnswer(t.c.sqs[i], answers, 0, f, x)
  {
    hide Good, CqAwake, Matched, FetchTurns, Kept;
    TimerFired(j, i);
    var j1, n := j.(c := C.SetTimer(j.c, i, false)), j.c.sqs[i].arbBurst;
    TimersSame(j.c, i, false);
    FetchTurnsOutcomes(j1, i, answers, 0, n);
    FetchTurnsKeeps(j1, i, answers, 0, n);
    var t := FetchTurns(j1, i, answers, 0, n);
    TimersSame(t.c, i, true);
    SameKept(j.c, j1.c);
    KeptTwice(j.c, j1.c, t.c);
    SameKept(t.c, C.SetTimer(t.c, i, true));
    KeptTwice(j.c, t.c, C.SetTimer(t.c, i, true));
    forall x | |j.c.sqs[i].fetched| <= x < |t.c.sqs[i].fetched|
      ensures TellsAnswer(C.SetTimer(t.c, i, true).sqs[i], answers, 0, |j.c.sqs[i].fetched|, x)
    {
      assert TellsAnswer(t.c.sqs[i], answers, 0, |j.c.sqs[i].fetched|, x);
    }
  }

  /** An outstanding command has no outcome yet. */
  lemma OutUntold(c: Ctrl, i: nat, n: nat)
    requires Good(c) && i in c.sqs && n < |c.sqs[i].outReqList|
    ensures c.sqs[i].outReqList[n].serial !in c.sqs[i].outcomes
  {
    C.GoodStructured(c);
    HeldQueue(c, i);
  }

  /** The I/O of a command has ended. */
  lemma IoEndOutcome(j: Joint, i: nat, n: nat, ok: bool)
    requires JointInv(j) && i in j.c.sqs && n < |j.c.sqs[i].outReqList|
    ensures
      var t, x := IoEnd(j, i, n, ok), j.c.sqs[i].outReqList[n].serial;
      && Kept(j.c, t.c) && i in t.c.sqs && x in t.c.sqs[i].outcomes && t.c.sqs[i].outcomes[x] == IoEnded(ok)
  {
    hide Good, AwakeBut, Matched;
    OutUntold(j.c, i, n);
  }

  lemma NewQueueKept(c: Ctrl, i: nat, k: nat, size: RingSize, burst: nat)
    ensures Kept(c, AddCq(c, k, size))
    ensures i !in c.sqs && k in c.cqs ==> Kept(c, AddSq(c, i, k, size, burst))
  {
    hide FreeRequests;
    if i !in c.sqs && k in c.cqs { AddedSq(c, i, k, size, burst); }
  }

  lemma StepKept(j: Joint, e: Event)
    requires JointInv(j)
    ensures Kept(j.c, Step(j, e).c)
  {
    hide C.Inv, Matched, Rings.Shaped, Rings.Step, FetchBurst, PostTurns, IoEnd, AddCq, AddSq, C.RingTail, C.RingHead,
         Kept, SameOutcomes;
    MatchedShaped(j);
    KeptItself(j.c);
    match e
    case Submit(_, _) =>
    case Consume(_) =>
    case TailBell(i) => if i in j.s.sqs { BellsKept(j.c, i, j.s.sqs[i].hostTail); }
    case HeadBell(k) => if k in j.s.cqs { BellsKept(j.c, k, j.s.cqs[k].hostHead); }
    case SqTimer(i, answers) => if i in j.c.sqs && j.c.sqs[i].timer { FetchBurstOutcomes(j, i, answers); }
    case CqTimer(k) => if k in j.c.cqs && j.c.cqs[k].timer { PostBurstKept(j, k); }
    case IoDone(i, n, ok) => if i in j.c.sqs && n < |j.c.sqs[i].outReqList| { IoEndOutcome(j, i, n, ok); }
    case NewCq(k, ring) => if |ring| >= 2 { NewQueueKept(j.c, 0, k, |ring|, 0); }
    case NewSq(i, k, slots, burst) => if |slots| >= 2 { NewQueueKept(j.c, i, k, |slots|, burst); }
  }

  lemma BellsKept(c: Ctrl, i: nat, value: int)
    ensures Kept(c, C.RingTail(c, i, value)) && Kept(c, C.RingHead(c, i, value))
  {
    hide C.RingTail, C.RingHead, Kept, SameOutcomes;
    TailSame(c, i, value);
    HeadSame(c, i, value);
    SameKept(c, C.RingTail(c, i, value));
    SameKept(c, C.RingHead(c, i, value));
  }

  lemma PostBurstKept(j: Joint, k: nat)
    requires JointInv(j) && k in j.c.cqs
    ensures Kept(j.c, PostBurst(j, k).c)
  {
    hide C.Inv, Structured, Matched, PostTurns, Kept, SameOutcomes;
    TimerCleared(j, k);
    var j1 := j.(c := C.ClearCqTimer(j.c, k));
    TimersSame(j.c, k, false);
    PostTurnsSame(j1, k);
    SameKept(j.c, j1.c);
    SameKept(j1.c, PostTurns(j1, k).c);
    KeptTwice(j.c, j1.c, PostTurns(j1, k).c);
  }

  lemma {:induction false} RunKept(j: Joint, es: seq<Event>)
    requires JointInv(j)
    ensures Kept(j.c, Run(j, es).c) && JointInv(Run(j, es))
    decreases |es|
  {
    hide JointInv, Step, Kept;
    if es == [] {
      KeptItself(j.c);
    } else {
      StepKept(j, es[0]);
      StepKeeps(j, es[0]);
      RunKept(Step(j, es[0]), es[1..]);
      KeptTwice(j.c, Step(j, es[0]).c, Run(Step(j, es[0]), es[1..]).c);
    }
  }

  // ---------------------------------------------------------------------------
  // What the host is told
  // ---------------------------------------------------------------------------

  /** If the host has taken the completion of command `x` of queue `i`, its status is this. */
  ghost predicate HostTold(j: Joint, i: nat, x: nat, status: nat)
    requires i in j.c.sqs && j.c.sqs[i].cqid in j.s.cqs
  {
    forall n :: 0 <= n < |Taken(j, i)| && n < |j.c.sqs[i].answered| && j.c.sqs[i].answered[n].serial == x ==>
      Taken(j, i)[n].status == status
  }

  lemma OutcomeTold(j: Joint, i: nat, x: nat)
    requires JointInv(j) && i in j.c.sqs && x in j.c.sqs[i].outcomes
    ensures j.c.sqs[i].cqid in j.s.cqs && HostTold(j, i, x, StatusOf(j.c.sqs[i].outcomes[x]))
  {
    hide JointInv, Taken, StatusOf;
    InvTakenOnce(j, i);
    forall n | 0 <= n < |Taken(j, i)| && j.c.sqs[i].answered[n].serial == x
      ensures Taken(j, i)[n].status == StatusOf(j.c.sqs[i].outcomes[x])
    {
      assert Answers(Taken(j, i)[n], j.c.sqs[i].answered[n], j.s.sqs[i].submitted, j.c.sqs[i].outcomes);
    }
  }

  /** When the I/O of a command has ended, its completion says so whenever the host takes it:
      success if the I/O succeeded, an internal error otherwise. */
  lemma IoOutcomeReported(j: Joint, i: nat, n: nat, ok: bool, es: seq<Event>)
    requires JointInv(j) && i in j.c.sqs && n < |j.c.sqs[i].outReqList|
    ensures JointInv(Step(j, IoDone(i, n, ok)))
    ensures
      var t, x := Run(Step(j, IoDone(i, n, ok)), es), j.c.sqs[i].outReqList[n].serial;
      && i in t.c.sqs && t.c.sqs[i].cqid in t.s.cqs && HostTold(t, i, x, if ok then 0x0 else 0x6)
  {
    hide JointInv, Kept, HostTold, Run, IoEnd, Rings.Shaped;
    StepKeeps(j, IoDone(i, n, ok));
    assert Rings.Shaped(j.s) by { ShapedJoint(j); }
    var u, x := Step(j, IoDone(i, n, ok)), j.c.sqs[i].outReqList[n].serial;
    IoEndOutcome(j, i, n, ok);
    RunKept(u, es);
    var t := Run(u, es);
    KeptOutcome(u.c, t.c, i, x);
    OutcomeTold(t, i, x);
  }

  lemma ShapedJoint(j: Joint)
    requires JointInv(j)
    ensures Rings.Shaped(j.s)
  {
    hide Matched, C.Inv;
    MatchedShaped(j);
  }

  lemma KeptOutcome(c: Ctrl, t: Ctrl, i: nat, x: nat)
    requires Kept(c, t) && i in c.sqs && x in c.sqs[i].outcomes
    ensures i in t.sqs && x in t.sqs[i].outcomes && t.sqs[i].outcomes[x] == c.sqs[i].outcomes[x]
  {
    assert Grown(c.sqs[i].outcomes, t.sqs[i].outcomes);
  }

  /** When a command is answered at once, its completion has that status whenever the host
      takes it. */
  lemma AnswerReported(j: Joint, i: nat, answers: nat -> Answer, x: nat, es: seq<Event>)
    requires JointInv(j) && i in j.c.sqs
    ensures JointInv(Step(j, SqTimer(i, answers)))
    ensures
      var u, f := Step(j, SqTimer(i, answers)), |j.c.sqs[i].fetched|;
      var t := Run(u, es);
      && i in u.c.sqs && i in t.c.sqs && t.c.sqs[i].cqid in t.s.cqs
      && (f <= x < |u.c.sqs[i].fetched| && answers(x - f).Now? ==> HostTold(t, i, x, answers(x - f).status))
  {
    hide JointInv, Kept, HostTold, Run, FetchBurst, Rings.Shaped;
    StepKeeps(j, SqTimer(i, answers));
    assert Rings.Shaped(j.s) by { ShapedJoint(j); }
    var u, f := Step(j, SqTimer(i, answers)), |j.c.sqs[i].fetched|;
    FetchBurstOutcomes(j, i, answers);
    RunKept(u, es);
    var t := Run(u, es);
    assert i in t.c.sqs by { KeptQueue(u.c, t.c, i); }
    InvTakenOnce(t, i);
    if f <= x < |u.c.sqs[i].fetched| && answers(x - f).Now? {
      assert TellsAnswer(u.c.sqs[i], answers, 0, f, x);
      KeptOutcome(u.c, t.c, i, x);
      OutcomeTold(t, i, x);
    }
  }

  lemma KeptQueue(c: Ctrl, t: Ctrl, i: nat)
    requires Kept(c, t) && i in c.sqs
    ensures i in t.sqs
  {
  }
}
