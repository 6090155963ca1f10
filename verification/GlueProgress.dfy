/** The glue's two threads get their work done: a polling simulation that answers the reads
    it gets leaves nothing behind. */
module GlueProgress {
  import opened Glue
  import opened GlueContents

  function IoWork(io: Io): nat {
    match io
    case IoReady => 0
    case IoPush(_) => 16
    case IoSpin(_) => 3
    case IoCopy(_) => 2
    case IoFree(_, _) => 1
    case IoDrain(chain) => 1 + 2 * |chain|
  }

  function SimWork(sim: Sim): int {
    match sim
    case SimReady => 0
    case SimGot(_) => 9
    case SimFree(_) => 1
    case SimPush(_) => 7
    case SimLoaded(node, _) => if node.Some? then -1 else 1
    case SimCleared(_, _) => 4
    case SimStored(_) => 3
  }

  /** Steps still to be taken, at most. */
  function Work(s: State): int {
    12 * |s.rx| + 6 * |s.tx| + IoWork(s.io) + SimWork(s.sim) + (if s.replyNode.Some? then 7 else 0)
  }

  /** Everything but new accesses and new writes: the push event follows a push, and the
      simulation replies only to a read that it has got. */
  predicate Move(s: State, e: Event) {
    match e
    case StartAccess(_, _) => false
    case StartSend(_) => false
    case StartDrain => s.tx != []
    case StartReply(_) => s.replyNode.Some?
    case _ => true
  }

  predicate Falls(s: State, t: State) { t == s || Work(t) < Work(s) }

  lemma AccessFalls(s: State)
    requires Safe(s) && !s.io.IoDrain? && !s.io.IoReady?
    ensures Falls(s, StepAccess(s))
    ensures (s.io.IoSpin? ==> IsReplied(s.live, s.io.id)) ==> Work(StepAccess(s)) < Work(s)
  {
    hide Placed;
  }

  lemma DrainFalls(s: State, chain: seq<nat>)
    requires s.io == IoDrain(chain)
    ensures Work(StepDrain(s, chain)) < Work(s)
  {
  }

  lemma IoFalls(s: State)
    requires Safe(s)
    ensures Falls(s, StepIo(s))
    ensures s.io != IoReady && (s.io.IoSpin? ==> IsReplied(s.live, s.io.id)) ==> Work(StepIo(s)) < Work(s)
  {
    hide Safe, Work, StepAccess, StepDrain;
    if !s.io.IoDrain? && !s.io.IoReady? {
      AccessFalls(s);
    } else if s.io.IoDrain? {
      DrainFalls(s, s.io.chain);
    }
  }

  lemma HandFalls(s: State)
    requires Safe(s) && (s.sim.SimGot? || s.sim.SimFree? || s.sim.SimPush?)
    ensures Work(StepHand(s)) < Work(s)
  {
    if s.sim.SimGot? && s.live[s.sim.id].kind == Read { NotDoubled(s); }
    hide Placed;
  }

  lemma ReplyFalls(s: State)
    requires Safe(s) && (s.sim.SimLoaded? || s.sim.SimCleared? || s.sim.SimStored?)
    ensures Work(StepReply(s)) < Work(s)
  {
    hide Placed;
  }

  lemma SimFalls(s: State)
    requires Safe(s)
    ensures Falls(s, StepSim(s)) && (s.sim != SimReady ==> Work(StepSim(s)) < Work(s))
  {
    hide Safe, Work, StepHand, StepReply;
    if s.sim.SimGot? || s.sim.SimFree? || s.sim.SimPush? {
      HandFalls(s);
    } else if s.sim != SimReady {
      ReplyFalls(s);
    }
  }

  /** A move that changes anything at all brings the end nearer. */
  lemma MoveFalls(s: State, e: Event)
    requires Safe(s) && Move(s, e)
    ensures Falls(s, Step(s, e))
  {
    hide Safe, StepIo, StepSim;
    match e
    case IoStep => IoFalls(s);
    case SimStep => SimFalls(s);
    case _ =>
  }

  /** Nothing is under way. */
  predicate Resting(s: State) {
    s.io == IoReady && s.sim == SimReady && s.rx == [] && s.tx == [] && s.replyNode == None
  }

  /** With the simulation at rest, a read that spins has been replied to. */
  lemma SpinReplied(s: State, id: nat)
    requires Safe(s) && s.io == IoSpin(id) && s.sim == SimReady && s.rx == [] && s.replyNode == None
    ensures IsReplied(s.live, id)
  {
    assert Is(s, id, Read);
    assert Places(s, id) == One(id in s.live);
    OccursNot(s.tx, id);
    assert forall k :: 0 <= k < |s.tx| ==> Is(s, s.tx[k], Transmit);
  }

  /** As long as anything is under way, some move brings the end nearer. */
  lemma MoveExists(s: State) returns (e: Event)
    requires Safe(s) && !Resting(s)
    ensures Move(s, e) && Work(Step(s, e)) < Work(s)
  {
    hide Safe, StepIo, StepSim;
    if s.sim != SimReady {
      e := SimStep;
      SimFalls(s);
    } else if s.rx != [] {
      e := StartPoll;
    } else if s.replyNode.Some? {
      e := StartReply(0);
    } else if s.io != IoReady {
      e := IoStep;
      if s.io.IoSpin? { SpinReplied(s, s.io.id); }
      IoFalls(s);
    } else {
      e := StartDrain;
    }
  }

  lemma WorkIsNatural(s: State)
    requires Safe(s)
    ensures Work(s) >= 0
  {
    hide Placed;
  }

  // ---------------------------------------------------------------------------
  // The end
  // ---------------------------------------------------------------------------

  /** Moves each of which changes something. */
  predicate RealMoves(s: State, es: seq<Event>)
    decreases |es|
  {
    es != [] ==> Move(s, es[0]) && Step(s, es[0]) != s && RealMoves(Step(s, es[0]), es[1..])
  }

  /** No move changes anything. */
  ghost predicate Ended(s: State) { forall e :: Move(s, e) ==> Step(s, e) == s }

  /** However the threads are interleaved, they make only so many moves. */
  lemma {:induction false} MovesAreBounded(s: State, es: seq<Event>)
    requires Inv(s) && RealMoves(s, es)
    ensures |es| + Work(Run(s, es)) <= Work(s)
    decreases |es|
  {
    hide Inv, Step, Move, Work;
    if es != [] {
      InvSafe(s);
      MoveFalls(s, es[0]);
      StepKeeps(s, es[0]);
      MovesAreBounded(Step(s, es[0]), es[1..]);
    }
  }

  lemma InvSafe(s: State)
    requires Inv(s)
    ensures Safe(s)
  {
  }

  /** They stop exactly when nothing is under way. */
  lemma RestsExactly(s: State)
    requires Safe(s)
    ensures Ended(s) <==> Resting(s)
  {
    hide Safe, StepIo, StepSim, Work;
    if !Resting(s) {
      var e := MoveExists(s);
    } else {
      forall e | Move(s, e) ensures Step(s, e) == s { AtRest(s, e); }
    }
  }

  lemma AtRest(s: State, e: Event)
    requires Resting(s) && Move(s, e)
    ensures Step(s, e) == s
  {
  }

  /** What has arrived when nothing is under way. */
  lemma RestingArrived(s: State)
    requires Contents(s) && Resting(s)
    ensures s.got == s.made && s.wire == s.written && ReadIds(s.made) == Ids(s.results)
  {
    hide ReadIds, Ids;
    assert s.made[..|s.made|] == s.made && s.written[..|s.written|] == s.written;
    assert Ids(s.results) + [] == Ids(s.results);
  }

  /** There is always a way to the end. */
  lemma {:induction false} EndReached(s: State) returns (es: seq<Event>)
    requires Inv(s)
    ensures RealMoves(s, es) && Inv(Run(s, es)) && Resting(Run(s, es))
    decreases Work(s)
  {
    hide Inv, Step, Move, Work, Resting;
    InvSafe(s);
    if Resting(s) {
      es := [];
    } else {
      var e := MoveExists(s);
      StepKeeps(s, e);
      WorkIsNatural(s);
      assert Safe(Step(s, e)) by { InvSafe(Step(s, e)); }
      WorkIsNatural(Step(s, e));
      var rest := EndReached(Step(s, e));
      es := [e] + rest;
      assert es[1..] == rest;
    }
  }

  /** After any run, however the two threads then take turns, they come to rest; and then
      the simulation has got every access that the machine made, the network every write
      that the simulation made, and every read has returned. */
  lemma EverythingArrives(es: seq<Event>, moves: seq<Event>)
    requires RealMoves(Run(START, es), moves)
    ensures
      var s := Run(START, es);
      var t := Run(s, moves);
      && |moves| <= Work(s)
      && (Ended(t) ==>
            && t.got == Accesses(START, es) && t.wire == Writes(START, es)
            && ReadIds(Accesses(START, es)) == Ids(t.results))
  {
    hide Inv, Step, Contents, Ended, RealMoves, Run, Work, ReadIds, Accesses, Writes;
    StartInv();
    StartContents();
    RunContents(START, es);
    var s := Run(START, es);
    var t := Run(s, moves);
    MovesAreBounded(s, moves);
    RunContents(s, moves);
    MovesMakeNone(s, moves);
    InvSafe(t);
    WorkIsNatural(t);
    assert [] + Accesses(START, es) == Accesses(START, es) && [] + Writes(START, es) == Writes(START, es);
    assert t.made + [] == t.made && s.made + [] == s.made && s.written + [] == s.written;
    if Ended(t) {
      RestsExactly(t);
      RestingArrived(t);
    }
  }

  lemma {:induction false} MovesMakeNone(s: State, es: seq<Event>)
    requires RealMoves(s, es)
    ensures Accesses(s, es) == [] && Writes(s, es) == []
    decreases |es|
  {
    hide Step;
    if es != [] { MovesMakeNone(Step(s, es[0]), es[1..]); }
  }
}
